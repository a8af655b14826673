/** Each event of the saga machine keeps the invariant. */
module SagaEvents {
  import opened CampaignTypes
  import opened DirectAdapter
  import opened SagaStore
  import opened SagaService
  import opened SagaSafety
  import opened SagaInvariant

  // ---------- sagas an event does not touch ----------

  ghost predicate SameGrants(st: Store, later: Store, k: string)
    requires k in st.sagas
  {
    var request := st.sagas[k].plan.request;
    && (request.reservation in st.reservations ==>
          request.reservation in later.reservations
          && later.reservations[request.reservation] == st.reservations[request.reservation])
    && (request.approval in st.approvals ==>
          request.approval in later.approvals && later.approvals[request.approval] == st.approvals[request.approval])
  }

  /** From saga `k`'s side nothing happened in the adapter, except that objects may be gone. */
  ghost predicate Untouched(a: Adapter, b: Adapter, k: string) {
    && (forall s :: StepKey(k, s) in b.results <==> StepKey(k, s) in a.results)
    && (forall s :: StepKey(k, s) in a.results ==> b.results[StepKey(k, s)] == a.results[StepKey(k, s)])
    && (forall s, c :: StepKey(k, s) in a.results && c in a.results[StepKey(k, s)].created && c.ref in b.objects ==>
          c.ref in a.objects)
  }

  lemma SagaFrame(sys: System, later: System, k: string)
    requires k in sys.store.sagas && k in later.store.sagas && later.store.sagas[k] == sys.store.sagas[k]
    requires SagaOk(sys, k)
    requires SameGrants(sys.store, later.store, k)
    requires sys.store.index <= later.store.index
    requires Untouched(sys.adapter, later.adapter, k)
    ensures SagaOk(later, k)
  {
    assert forall s, c :: Stands(later, k, s, c) ==> Stands(sys, k, s, c);
  }

  lemma ExtensionUntouched(sys: System, b: Adapter, key: OpKey, k: string)
    requires Numbered(sys) && Extends(sys.adapter, b, key)
    requires key.StepKey? ==> key.execution != k
    ensures Untouched(sys.adapter, b, k)
  {
  }

  // ---------- the conjuncts of the invariant, for lemmas that keep them folded ----------

  lemma SystemParts(sys: System)
    requires SystemOk(sys)
    ensures Keyed(sys.store) && GrantsBound(sys.store) && SentOnce(sys) && Numbered(sys)
    ensures forall k :: k in sys.store.sagas ==> SagaOk(sys, k)
  {
    hide SagaOk, Keyed, GrantsBound, SentOnce, Numbered;
  }

  lemma SystemFrom(sys: System)
    requires Keyed(sys.store) && GrantsBound(sys.store) && SentOnce(sys) && Numbered(sys)
    requires forall k :: k in sys.store.sagas ==> SagaOk(sys, k)
    ensures SystemOk(sys)
  {
    hide SagaOk, Keyed, GrantsBound, SentOnce, Numbered;
  }

  lemma SagaParts(sys: System, plan: Plan)
    requires SystemOk(sys) && Loaded(sys.store, plan)
    ensures var k := plan.request.execution;
            Shaped(Record(sys, plan)) && Lockstep(sys.store, k) && RowsKnown(sys, k) && Accounted(sys, k)
            && Truthful(sys, k) && RepliesFit(sys, k) && ValidDraft(plan.request.draft)
  {
    hide Shaped, Lockstep, RowsKnown, Accounted, Truthful, RepliesFit, GrantsBound, SentOnce, Numbered;
    assert KeyedAt(sys.store, plan.request.execution);
  }

  // ---------- rewriting one saga's rows ----------

  function WithRecord(sys: System, plan: Plan, record: SagaRecord, index: set<ObjectRef>): System {
    sys.(store := Put(sys.store, plan.request.execution, record).(index := index))
  }

  lemma PutKeepsSagas(sys: System, plan: Plan, record: SagaRecord, index: set<ObjectRef>)
    requires SystemOk(sys) && Loaded(sys.store, plan)
    requires record.plan == plan && sys.store.index <= index
    requires SagaOk(WithRecord(sys, plan, record, index), plan.request.execution)
    ensures var later := WithRecord(sys, plan, record, index);
            forall k :: k in later.store.sagas ==> SagaOk(later, k)
  {
    hide SagaOk, GrantsBound, SentOnce, Numbered;
    var e := plan.request.execution;
    var later := WithRecord(sys, plan, record, index);
    forall k | k in later.store.sagas ensures SagaOk(later, k) {
      if k != e {
        SagaFrame(sys, later, k);
      }
    }
  }

  /** The rows still show every dispatch whose key reached the adapter. */
  ghost predicate KeepsSent(sys: System, plan: Plan, record: SagaRecord) {
    forall s :: Times(sys.adapter.calls, StepKey(plan.request.execution, s)) == 1 ==> HasDispatch(record.dispatches, s)
  }

  lemma PutKeepsSent(sys: System, plan: Plan, record: SagaRecord, index: set<ObjectRef>)
    requires SentOnce(sys) && Loaded(sys.store, plan) && KeepsSent(sys, plan, record)
    ensures SentOnce(WithRecord(sys, plan, record, index))
  {
    hide HasDispatch, Times;
    var later := WithRecord(sys, plan, record, index);
    forall key: OpKey | key.StepKey? && Times(sys.adapter.calls, key) == 1 ensures Dispatched(later.store, key) {
      assert Dispatched(sys.store, key);
      assert key == StepKey(key.execution, key.step);
    }
  }

  lemma PutKeepsKeyed(st: Store, plan: Plan, record: SagaRecord, index: set<ObjectRef>)
    requires Keyed(st) && GrantsBound(st) && Loaded(st, plan) && record.plan == plan
    ensures Keyed(Put(st, plan.request.execution, record).(index := index))
    ensures GrantsBound(Put(st, plan.request.execution, record).(index := index))
  {
    assert KeyedAt(st, plan.request.execution);
    forall k | k in Put(st, plan.request.execution, record).(index := index).sagas
      ensures KeyedAt(Put(st, plan.request.execution, record).(index := index), k)
    {
      assert KeyedAt(st, k);
    }
  }

  ghost predicate Bounded(sys: System, index: set<ObjectRef>) {
    forall ref :: ref in index ==> ref.number <= LastId(sys.adapter.sequence, ref.service)
  }

  lemma PutKeepsNumbered(sys: System, plan: Plan, record: SagaRecord, index: set<ObjectRef>)
    requires Numbered(sys) && Bounded(sys, index)
    ensures Numbered(WithRecord(sys, plan, record, index))
  {
  }

  lemma PutKeeps(sys: System, plan: Plan, record: SagaRecord, index: set<ObjectRef>)
    requires SystemOk(sys) && Loaded(sys.store, plan)
    requires record.plan == plan && sys.store.index <= index
    requires Bounded(sys, index) && KeepsSent(sys, plan, record)
    requires SagaOk(WithRecord(sys, plan, record, index), plan.request.execution)
    ensures SystemOk(WithRecord(sys, plan, record, index))
  {
    hide *;
    SystemParts(sys);
    PutKeepsSagas(sys, plan, record, index);
    PutKeepsSent(sys, plan, record, index);
    assert Keyed(WithRecord(sys, plan, record, index).store) && GrantsBound(WithRecord(sys, plan, record, index).store) by {
      FoldRecord(sys, plan, record, index);
      PutKeepsKeyed(sys.store, plan, record, index);
    }
    PutKeepsNumbered(sys, plan, record, index);
    SystemFrom(WithRecord(sys, plan, record, index));
  }

  lemma FoldRecord(sys: System, plan: Plan, record: SagaRecord, index: set<ObjectRef>)
    ensures WithRecord(sys, plan, record, index).store == Put(sys.store, plan.request.execution, record).(index := index)
  {
  }

  ghost predicate RowsAnswered(sys: System, k: string, record: SagaRecord, index: set<ObjectRef>) {
    && DistinctRows(record.objects)
    && forall row :: row in record.objects ==> row.created.ref in index && StepKey(k, row.step) in sys.adapter.results
  }

  /** Every object of the saga that still stands has an uncompensated row, or its step is still unregistered. */
  ghost predicate Covered(sys: System, k: string, record: SagaRecord) {
    forall s, c :: Stands(sys, k, s, c) ==> Owns(record.objects, c.ref) || Unregistered(record, s)
  }

  ghost predicate StatusTruthful(sys: System, k: string, record: SagaRecord) {
    && (record.status == SagaStatus.Failed || record.status == PartiallyApplied ==> NoneLeft(sys, k))
    && (record.status == CompensationRequired ==> forall s, c :: Stands(sys, k, s, c) ==> Owns(record.objects, c.ref))
  }

  lemma RecordFits(sys: System, plan: Plan, record: SagaRecord, index: set<ObjectRef>)
    requires Loaded(sys.store, plan) && SagaOk(sys, plan.request.execution)
    requires record.plan == plan && Shaped(record)
    requires record.steps == Record(sys, plan).steps || AuthorityUsed(sys.store, plan)
    requires RowsAnswered(sys, plan.request.execution, record, index)
    requires Covered(sys, plan.request.execution, record)
    requires StatusTruthful(sys, plan.request.execution, record)
    ensures SagaOk(WithRecord(sys, plan, record, index), plan.request.execution)
  {
    hide Shaped, Unregistered, Owns;
    var k, later := plan.request.execution, WithRecord(sys, plan, record, index);
    assert forall s, c :: Stands(later, k, s, c) <==> Stands(sys, k, s, c);
  }

  /** Rewriting one saga's rows: enough to look at that saga. */
  lemma RecordKeeps(sys: System, plan: Plan, record: SagaRecord, index: set<ObjectRef>)
    requires SystemOk(sys) && Loaded(sys.store, plan)
    requires record.plan == plan && Shaped(record)
    requires record.steps == Record(sys, plan).steps || AuthorityUsed(sys.store, plan)
    requires sys.store.index <= index && Bounded(sys, index) && KeepsSent(sys, plan, record)
    requires RowsAnswered(sys, plan.request.execution, record, index)
    requires Covered(sys, plan.request.execution, record)
    requires StatusTruthful(sys, plan.request.execution, record)
    ensures SystemOk(WithRecord(sys, plan, record, index))
  {
    hide SagaOk, Keyed, GrantsBound, SentOnce, Numbered, Shaped, AuthorityUsed, RowsAnswered, Covered, StatusTruthful,
         KeepsSent, Bounded, WithRecord;
    RecordFits(sys, plan, record, index);
    PutKeeps(sys, plan, record, index);
  }

  // ---------- one call of the adapter ----------

  lemma CallKeepsSagas(sys: System, b: Adapter, key: OpKey)
    requires SystemOk(sys) && Extends(sys.adapter, b, key)
    requires key.StepKey? && b != sys.adapter ==>
               Dispatched(sys.store, key) && SagaOk(sys.(adapter := b), key.execution)
    ensures forall k :: k in sys.store.sagas ==> SagaOk(sys.(adapter := b), k)
  {
    hide SagaOk, GrantsBound, SentOnce, Extends, Keyed;
    forall k | k in sys.store.sagas ensures SagaOk(sys.(adapter := b), k) {
      if !(key.StepKey? && key.execution == k) {
        ExtensionUntouched(sys, b, key, k);
        SagaFrame(sys, sys.(adapter := b), k);
      }
    }
  }

  lemma {:induction false} CallKeepsSent(sys: System, b: Adapter, key: OpKey)
    requires SentOnce(sys) && Extends(sys.adapter, b, key)
    requires key.StepKey? && b != sys.adapter ==> Dispatched(sys.store, key) && Times(sys.adapter.calls, key) == 0
    ensures SentOnce(sys.(adapter := b))
  {
    hide Dispatched;
    assert forall other: OpKey :: Times(b.calls, other) ==
             Times(sys.adapter.calls, other) + (if b.calls != sys.adapter.calls && other == key then 1 else 0);
  }

  lemma CallKeepsNumbered(sys: System, b: Adapter, key: OpKey)
    requires Numbered(sys) && Extends(sys.adapter, b, key)
    requires key.CompensationKey? && key in b.results ==>
               key.ref !in b.objects && key.ref.number <= LastId(b.sequence, key.ref.service)
    ensures Numbered(sys.(adapter := b))
  {
    hide LastId;
  }

  /** One call: enough to look at the saga whose key was used. */
  lemma {:induction false} CallKeeps(sys: System, b: Adapter, key: OpKey)
    requires SystemOk(sys) && Extends(sys.adapter, b, key)
    requires key.StepKey? && b != sys.adapter ==>
               Dispatched(sys.store, key) && Times(sys.adapter.calls, key) == 0 && SagaOk(sys.(adapter := b), key.execution)
    requires key.CompensationKey? && key in b.results ==>
               key.ref !in b.objects && key.ref.number <= LastId(b.sequence, key.ref.service)
    ensures SystemOk(sys.(adapter := b))
  {
    hide *;
    SystemParts(sys);
    CallKeepsSagas(sys, b, key);
    CallKeepsSent(sys, b, key);
    CallKeepsNumbered(sys, b, key);
    SystemFrom(sys.(adapter := b));
  }
}
