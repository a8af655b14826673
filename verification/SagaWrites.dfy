/** The events of a write step keep the invariant: claim, send, authorize, register, close. */
module SagaWrites {
  import opened Basics
  import opened CampaignTypes
  import opened DirectAdapter
  import opened SagaStore
  import opened SagaService
  import opened SagaMachine
  import opened SagaSafety
  import opened SagaInvariant
  import opened SagaEvents

  /** Rewrites that leave the created-object index alone. */
  lemma RowsKeep(sys: System, plan: Plan, record: SagaRecord)
    requires SystemOk(sys) && Loaded(sys.store, plan)
    requires record.plan == plan && Shaped(record)
    requires record.objects == Record(sys, plan).objects
    requires record.steps == Record(sys, plan).steps || AuthorityUsed(sys.store, plan)
    requires KeepsSent(sys, plan, record)
    requires Covered(sys, plan.request.execution, record)
    requires StatusTruthful(sys, plan.request.execution, record)
    ensures SystemOk(sys.(store := Put(sys.store, plan.request.execution, record)))
  {
    hide Shaped, KeepsSent, Covered, StatusTruthful, SagaOk, SystemOk, AuthorityUsed, Lockstep, Keyed, GrantsBound, SentOnce,
         Accounted, Truthful, RepliesFit;
    SystemParts(sys);
    SagaParts(sys, plan);
    RecordKeeps(sys, plan, record, sys.store.index);
    assert WithRecord(sys, plan, record, sys.store.index) == sys.(store := Put(sys.store, plan.request.execution, record));
  }

  /** Closing the saga with a status that is true of the adapter. */
  lemma SettleKeeps(sys: System, plan: Plan, status: SagaStatus, detail: string)
    requires SystemOk(sys) && Loaded(sys.store, plan)
    requires status == Applied ==> |Record(sys, plan).steps| == |SAGA_STEPS|
    requires StatusTruthful(sys, plan.request.execution, Record(sys, plan).(status := status))
    ensures SystemOk(Settle(sys, plan, status, detail))
  {
    hide Shaped, SagaOk, SystemOk, AuthorityUsed, Lockstep, Keyed, GrantsBound, Numbered, RowsKnown, Truthful, RepliesFit,
         StatusTruthful;
    SystemParts(sys);
    SagaParts(sys, plan);
    var record := Record(sys, plan).(status := status, detail := detail);
    SettledShape(Record(sys, plan), status, detail);
    SettledSent(sys, plan);
    SettledTruthful(sys, plan.request.execution, Record(sys, plan), status, detail);
    RowsKeep(sys, plan, record);
  }

  lemma SettledShape(record: SagaRecord, status: SagaStatus, detail: string)
    requires Shaped(record) && (status == Applied ==> |record.steps| == |SAGA_STEPS|)
    ensures Shaped(record.(status := status, detail := detail))
  {
  }

  lemma SettledTruthful(sys: System, k: string, record: SagaRecord, status: SagaStatus, detail: string)
    requires StatusTruthful(sys, k, record.(status := status))
    ensures StatusTruthful(sys, k, record.(status := status, detail := detail))
  {
  }

  lemma SettledSent(sys: System, plan: Plan)
    requires SentOnce(sys) && Loaded(sys.store, plan)
    ensures KeepsSent(sys, plan, Record(sys, plan))
  {
    hide Times, HasDispatch;
    forall s | Times(sys.adapter.calls, StepKey(plan.request.execution, s)) == 1
      ensures HasDispatch(Record(sys, plan).dispatches, s)
    {
      assert Dispatched(sys.store, StepKey(plan.request.execution, s));
    }
  }

  // ---------- the pending dispatch ----------

  lemma PendingRow(sys: System, plan: Plan, step: Step)
    requires Loaded(sys.store, plan) && Shaped(Record(sys, plan)) && Awaits(sys, plan, step)
    ensures IsWrite(step) && Ordinal(step) == |Record(sys, plan).steps|
    ensures forall s :: IsPending(Record(sys, plan).dispatches, s) <==> s == step
    ensures Last(Record(sys, plan).dispatches).request.key == StepKey(plan.request.execution, step)
  {
    hide IsPending;
    forall s ensures IsPending(Record(sys, plan).dispatches, s) <==> s == step {
      PendingIsNext(Record(sys, plan), s);
    }
  }

  lemma DispatchedIfAwaited(sys: System, plan: Plan, step: Step)
    requires Awaits(sys, plan, step)
    ensures HasDispatch(Record(sys, plan).dispatches, step)
  {
    assert Last(Record(sys, plan).dispatches) in Record(sys, plan).dispatches;
  }

  // ---------- the call ----------

  lemma NewReplyFits(types: map<Service, string>, a: Adapter, plan: Plan, step: Step, request: DirectRequest)
    requires RequestFits(plan, step, request)
    requires Apply(types, a, request).outcome.Answered?
    ensures ReplyFits(Apply(types, a, request).outcome.reply, step)
    ensures Apply(types, a, request).outcome.reply.service == request.service
    ensures Apply(types, a, request).outcome.reply.verb == request.verb
  {
    hide AddAll, MoveAll, ReadAll, NewContents, NewType, NewState;
    if IsAdd(step) {
      AddAllIsFresh(a.objects, LastId(a.sequence, request.service), request.service,
                    NewType(types, request.service, request.payload),
                    NewState(request.service, request.payload), NewContents(request.payload));
    } else {
      MoveAllMoves(a.objects, IdsOf(request.payload), if step == ModerationSubmit then Moderation else On);
    }
  }

  /** What a first call under a write-step key does to the remembered results. */
  lemma FirstCall(faults: Faults, a: Adapter, plan: Plan, step: Step, request: DirectRequest)
    requires RequestFits(plan, step, request) && request.key !in a.results
    ensures var r := Invoke(faults, a, request);
            && (request.key in r.0.results ==> ReplyFits(r.0.results[request.key], step))
            && (r.1.Answered? ==> request.key in r.0.results && r.0.results[request.key] == r.1.reply)
            && (!r.1.Answered? && !r.1.OutcomeUnknown? ==> r.0.results == a.results)
  {
    hide Apply, ReplyFits;
    if Apply(faults.types, a, request).outcome.Answered? {
      NewReplyFits(faults.types, a, plan, step, request);
    }
  }

  /** Objects that stood before a call keep standing under their own key; new ones belong to the called key. */
  lemma StandsAfterCall(sys: System, b: Adapter, key: OpKey, k: string, s: Step, c: Created)
    requires Numbered(sys) && Extends(sys.adapter, b, key)
    requires Stands(sys.(adapter := b), k, s, c)
    ensures Stands(sys, k, s, c) || (key == StepKey(k, s) && key !in sys.adapter.results)
  {
  }

  lemma CallFits(sys: System, b: Adapter, plan: Plan, step: Step)
    requires SystemOk(sys) && Awaits(sys, plan, step)
    requires StepKey(plan.request.execution, step) !in sys.adapter.results
    requires Extends(sys.adapter, b, StepKey(plan.request.execution, step))
    requires StepKey(plan.request.execution, step) in b.results ==>
               ReplyFits(b.results[StepKey(plan.request.execution, step)], step)
    ensures SagaOk(sys.(adapter := b), plan.request.execution)
  {
    hide SystemOk, Shaped, Stands, Numbered, ReplyFits, Owns, Unregistered, Lockstep, Keyed, GrantsBound, SentOnce;
    var k, later := plan.request.execution, sys.(adapter := b);
    SystemParts(sys);
    SagaParts(sys, plan);
    forall s, c | Stands(later, k, s, c)
      ensures Owns(later.store.sagas[k].objects, c.ref) || Unregistered(later.store.sagas[k], s)
    {
      StandsAfterCall(sys, b, StepKey(k, step), k, s, c);
      if s == step {
        NotYetRegistered(sys, plan, step);
      }
    }
  }

  lemma NotYetRegistered(sys: System, plan: Plan, step: Step)
    requires Awaits(sys, plan, step) && Shaped(Record(sys, plan)) && RowsKnown(sys, plan.request.execution)
    requires StepKey(plan.request.execution, step) !in sys.adapter.results
    ensures Unregistered(Record(sys, plan), step)
  {
    hide Shaped;
    PendingRow(sys, plan, step);
  }

  lemma SendKeeps(c: Config, faults: Faults)
    requires Inv(c) && c.at.Claimed?
    ensures SystemOk(DoSend(c, faults).sys)
  {
    hide SystemOk, RequestFits, Extends, ReplyFits, SentOnce, Times, Apply, SagaOk, Keyed, GrantsBound, Numbered, Invoke, HasDispatch;
    var plan, step, request := c.at.plan, c.at.step, c.at.request;
    SystemParts(c.sys);
    RequestKey(plan, step, request);
    SentMeansCalled(c.sys, request.key);
    InvokeExtends(faults, c.sys.adapter, request);
    FirstCall(faults, c.sys.adapter, plan, step, request);
    var b := Invoke(faults, c.sys.adapter, request).0;
    CallFits(c.sys, b, plan, step);
    DispatchedIfAwaited(c.sys, plan, step);
    CallKeeps(c.sys, b, request.key);
    assert DoSend(c, faults).sys == c.sys.(adapter := b);
  }

  lemma RequestKey(plan: Plan, step: Step, request: DirectRequest)
    requires RequestFits(plan, step, request)
    ensures request.key == StepKey(plan.request.execution, step) && IsWrite(step)
  {
  }

  lemma {:induction false} SentMeansCalled(sys: System, key: OpKey)
    requires SentOnce(sys) && key.StepKey? && Times(sys.adapter.calls, key) == 0
    ensures key !in sys.adapter.results
  {
  }

  // ---------- where compensation starts ----------

  lemma {:induction false} LiveLists(objects: seq<ObjectRow>)
    ensures forall row :: row in objects && !row.compensated ==> row.created in Live(objects)
    ensures forall created :: created in Live(objects) ==> exists row :: row in objects && !row.compensated && row.created == created
  {
    if objects != [] {
      LiveLists(objects[1..]);
      assert objects == [objects[0]] + objects[1..];
    }
  }

  /** Compensation starts with every row not yet compensated on its list. */
  lemma StartLists(sys: System, plan: Plan, detail: string)
    requires Loaded(sys.store, plan)
    ensures var at := StartCompensation(sys, plan, detail);
            && Listed(sys, plan, (set ref | ref in at.todo), 0)
            && (at.nothing ==> at.todo == [])
  {
    var objects := Record(sys, plan).objects;
    var refs := CreatedRefs(Live(objects));
    LiveLists(objects);
    ReversedSame(refs);
    forall row | row in objects && !row.compensated ensures row.created.ref in refs {
      var i :| 0 <= i < |Live(objects)| && Live(objects)[i] == row.created;
      assert refs[i] == row.created.ref;
    }
  }

  lemma CompensationStarts(sys: System, plan: Plan, detail: string)
    requires SystemOk(sys) && Running(sys.store, plan) && AllOwned(sys, plan.request.execution)
    ensures Inv(Config(sys, StartCompensation(sys, plan, detail)))
  {
    hide SystemOk, AllOwned, Listed;
    StartLists(sys, plan, detail);
  }

  /** Nothing unregistered stands, so every object of the saga that stands has an uncompensated row. */
  lemma OwnedUnlessPending(sys: System, plan: Plan)
    requires SystemOk(sys) && Loaded(sys.store, plan)
    requires forall s :: Unregistered(Record(sys, plan), s) ==> StepKey(plan.request.execution, s) !in sys.adapter.results
    ensures AllOwned(sys, plan.request.execution)
  {
    hide SystemOk, Unregistered, Shaped, Lockstep, RowsKnown, Truthful, RepliesFit;
    SagaParts(sys, plan);
  }

  lemma SendInv(c: Config, faults: Faults)
    requires Inv(c) && c.at.Claimed?
    ensures Inv(DoSend(c, faults))
  {
    hide SystemOk, RequestFits, SentOnce, Times, Invoke, Extends, Keyed, GrantsBound, Numbered, ReplyFits, Unregistered, Shaped,
         Lockstep, RowsKnown, Truthful, RepliesFit, Accounted;
    var plan, step, request := c.at.plan, c.at.step, c.at.request;
    SystemParts(c.sys);
    SagaParts(c.sys, plan);
    SendKeeps(c, faults);
    RequestKey(plan, step, request);
    SentMeansCalled(c.sys, request.key);
    FirstCall(faults, c.sys.adapter, plan, step, request);
    var answered := Invoke(faults, c.sys.adapter, request);
    if answered.1.DefiniteFailure? {
      var sys := c.sys.(adapter := answered.0);
      forall s | Unregistered(Record(sys, plan), s) ensures StepKey(plan.request.execution, s) !in sys.adapter.results {
        UnregisteredIsPending(Record(sys, plan), s);
        PendingRow(c.sys, plan, step);
      }
      OwnedUnlessPending(sys, plan);
      CompensationStarts(sys, plan, answered.1.reason);
    }
  }

  lemma UnregisteredIsPending(record: SagaRecord, s: Step)
    requires Unregistered(record, s)
    ensures IsPending(record.dispatches, s) && !HasObjectsOf(record.objects, s)
  {
  }

  // ---------- claim and refusal ----------

  lemma HandlerRequestFits(plan: Plan, live: seq<Created>, step: Step)
    requires ValidDraft(plan.request.draft) && HandlerRequest(plan, live, step).Ok?
    ensures RequestFits(plan, step, HandlerRequest(plan, live, step).value)
  {
    hide Live, OfService;
  }

  lemma ClaimCovers(sys: System, k: string, record: SagaRecord, dispatches: seq<DispatchRow>)
    requires Covered(sys, k, record)
    requires forall row :: row in record.dispatches ==> row in dispatches
    ensures Covered(sys, k, record.(dispatches := dispatches))
  {
    hide Stands;
    forall s, c | Stands(sys, k, s, c)
      ensures Owns(record.objects, c.ref) || Unregistered(record.(dispatches := dispatches), s)
    {
    }
  }

  lemma ClaimSent(sys: System, plan: Plan, dispatches: seq<DispatchRow>)
    requires SentOnce(sys) && Loaded(sys.store, plan)
    requires forall row :: row in Record(sys, plan).dispatches ==> row in dispatches
    ensures KeepsSent(sys, plan, Record(sys, plan).(dispatches := dispatches))
  {
    hide Times;
    SettledSent(sys, plan);
  }

  /** A granted claim is this saga's own, for the request the handler built, and the key was never called before. */
  lemma ClaimGranted(c: Config, step: Step, request: DirectRequest, gateOpen: bool)
    requires Inv(c) && c.at.Working?
    requires NextStep(Record(c.sys, c.at.plan)) == Some(step) && IsWrite(step)
    requires HandlerRequest(c.at.plan, Live(Record(c.sys, c.at.plan).objects), step) == Ok(request)
    requires Claim(c.sys.store, request, gateOpen).1 == Ok(true)
    ensures Inv(Config(c.sys.(store := Claim(c.sys.store, request, gateOpen).0), Claimed(c.at.plan, step, request)))
  {
    hide SystemOk, Live, RequestFits, ExpectedRequest, FirstPending, Shaped, Covered, KeepsSent, StatusTruthful, Keyed, GrantsBound,
         SentOnce, Numbered, Lockstep, RowsKnown, RepliesFit, Times, HasDispatch;
    var plan := c.at.plan;
    var record := Record(c.sys, plan);
    SystemParts(c.sys);
    SagaParts(c.sys, plan);
    assert RequestFits(plan, step, request) by {
      HandlerRequestFits(plan, Live(record.objects), step);
    }
    RequestKey(plan, step, request);
    RequestRun(plan, step, request);
    var claimed := ClaimRecord(record, request, gateOpen).0;
    assert Claim(c.sys.store, request, gateOpen).0 == Put(c.sys.store, plan.request.execution, claimed);
    assert claimed == record.(dispatches := record.dispatches + [DispatchRow(|record.steps|, step, request, false)]);
    NeverSent(c.sys, plan, step);
    ClaimShape(record, request, gateOpen);
    ClaimCoversSaga(c.sys, plan, claimed.dispatches);
    ClaimSent(c.sys, plan, claimed.dispatches);
    RowsKeep(c.sys, plan, claimed);
  }

  lemma ClaimCoversSaga(sys: System, plan: Plan, dispatches: seq<DispatchRow>)
    requires SystemOk(sys) && Running(sys.store, plan)
    requires forall row :: row in Record(sys, plan).dispatches ==> row in dispatches
    ensures Covered(sys, plan.request.execution, Record(sys, plan).(dispatches := dispatches))
    ensures StatusTruthful(sys, plan.request.execution, Record(sys, plan).(dispatches := dispatches))
  {
    hide SystemOk, Stands, Unregistered, Shaped, Lockstep, RowsKnown, RepliesFit;
    SagaParts(sys, plan);
    assert Covered(sys, plan.request.execution, Record(sys, plan));
    hide Covered;
    ClaimCovers(sys, plan.request.execution, Record(sys, plan), dispatches);
  }

  lemma RequestRun(plan: Plan, step: Step, request: DirectRequest)
    requires RequestFits(plan, step, request)
    ensures request.run == plan.request.run
  {
  }

  /** A step without a dispatch row was never sent. */
  lemma {:induction false} NeverSent(sys: System, plan: Plan, step: Step)
    requires SentOnce(sys) && Loaded(sys.store, plan) && Shaped(Record(sys, plan))
    requires NothingPending(Record(sys, plan)) && IsWrite(step) && Ordinal(step) == |Record(sys, plan).steps|
    ensures Times(sys.adapter.calls, StepKey(plan.request.execution, step)) == 0
  {
    hide Times, Shaped;
    NextIsDispatchedIfPending(Record(sys, plan), step);
    assert !Dispatched(sys.store, StepKey(plan.request.execution, step));
  }

  /** A refused claim leaves the store as it was, and cancelling it removes nothing. */
  lemma ClaimRefused(sys: System, plan: Plan, request: DirectRequest, gateOpen: bool)
    requires Running(sys.store, plan) && Shaped(Record(sys, plan)) && NothingPending(Record(sys, plan))
    requires request.run == plan.request.run && Claim(sys.store, request, gateOpen).1 != Ok(true)
    ensures CancelClaim(Claim(sys.store, request, gateOpen).0, request) == sys.store
  {
    hide Shaped, ClaimRecord, CancelRecord;
    ClaimShape(Record(sys, plan), request, gateOpen);
    CancelShape(Record(sys, plan), request);
    assert Put(sys.store, plan.request.execution, Record(sys, plan)) == sys.store;
  }

  lemma ClaimInv(c: Config, gateOpen: bool)
    requires Inv(c) && c.at.Working?
    ensures Inv(DoClaim(c, gateOpen))
  {
    hide SystemOk, Live, HandlerRequest, RequestFits, Claim, CancelClaim, BeginStep, Shaped, Keyed, GrantsBound,
         SentOnce, Numbered, Lockstep, RowsKnown, RepliesFit;
    var plan := c.at.plan;
    SagaParts(c.sys, plan);
    var next := NextStep(Record(c.sys, plan));
    if next.Some? && IsWrite(next.value) {
      var request := HandlerRequest(plan, Live(Record(c.sys, plan).objects), next.value);
      if request.Ok? {
        HandlerRequestFits(plan, Live(Record(c.sys, plan).objects), next.value);
        RequestRun(plan, next.value, request.value);
        if Claim(c.sys.store, request.value, gateOpen).1 == Ok(true) {
          ClaimGranted(c, next.value, request.value, gateOpen);
        } else {
          ClaimRefused(c.sys, plan, request.value, gateOpen);
        }
      }
    }
  }

  /** A claim taken back before the call: its key never reached the adapter, so nothing depends on the row. */
  lemma {:induction false} RefuseKeeps(sys: System, plan: Plan, step: Step, request: DirectRequest)
    requires SystemOk(sys) && Awaits(sys, plan, step) && request.run == plan.request.run
    requires Times(sys.adapter.calls, StepKey(plan.request.execution, step)) == 0
    ensures SystemOk(sys.(store := CancelClaim(sys.store, request)))
  {
    hide SystemOk, Shaped, Covered, KeepsSent, StatusTruthful, SagaOk, Keyed, GrantsBound, SentOnce, Numbered, Lockstep,
         RowsKnown, RepliesFit, Times, HasDispatch, NothingPending, CancelRecord;
    var record := Record(sys, plan);
    SystemParts(sys);
    SagaParts(sys, plan);
    var cancelled := CancelRecord(record, request);
    assert CancelClaim(sys.store, request) == Put(sys.store, plan.request.execution, cancelled);
    CancelShape(record, request);
    if cancelled == record {
      assert Put(sys.store, plan.request.execution, record) == sys.store;
    } else {
      CancelSent(sys, plan, step, cancelled);
      CancelCovers(sys, plan, step, cancelled);
      RowsKeep(sys, plan, cancelled);
    }
  }

  lemma {:induction false} CancelSent(sys: System, plan: Plan, step: Step, cancelled: SagaRecord)
    requires SentOnce(sys) && Awaits(sys, plan, step)
    requires Times(sys.adapter.calls, StepKey(plan.request.execution, step)) == 0
    requires var d := Record(sys, plan).dispatches; cancelled == Record(sys, plan).(dispatches := d[..|d| - 1])
    ensures KeepsSent(sys, plan, cancelled)
  {
    hide Times;
    SettledSent(sys, plan);
    var d := Record(sys, plan).dispatches;
    forall s | Times(sys.adapter.calls, StepKey(plan.request.execution, s)) == 1 ensures HasDispatch(cancelled.dispatches, s) {
      var i :| 0 <= i < |d| && d[i].step == s;
      assert d[i] == cancelled.dispatches[i];
    }
  }

  lemma {:induction false} CancelCovers(sys: System, plan: Plan, step: Step, cancelled: SagaRecord)
    requires SystemOk(sys) && Awaits(sys, plan, step)
    requires Times(sys.adapter.calls, StepKey(plan.request.execution, step)) == 0
    requires cancelled == Record(sys, plan).(dispatches := cancelled.dispatches)
    ensures Covered(sys, plan.request.execution, cancelled)
    ensures StatusTruthful(sys, plan.request.execution, cancelled)
  {
    hide SystemOk, Shaped, SentOnce, Times, Keyed, GrantsBound, Numbered, Lockstep, RowsKnown, RepliesFit, IsPending, HasObjectsOf, Owns;
    var k := plan.request.execution;
    SystemParts(sys);
    SagaParts(sys, plan);
    SentMeansCalled(sys, StepKey(k, step));
    forall s, c | Stands(sys, k, s, c) ensures Owns(cancelled.objects, c.ref) {
      PendingRow(sys, plan, step);
    }
  }

  // ---------- recovery and authority ----------

  lemma SettleInv(c: Config, plan: Plan, detail: string, origin: Origin)
    requires SystemOk(c.sys) && Running(c.sys.store, plan)
    ensures Inv(Config(Settle(c.sys, plan, UnknownResult, detail), GiveUp(plan, origin)))
  {
    hide SystemOk;
    SettleKeeps(c.sys, plan, UnknownResult, detail);
  }

  lemma RecoverInv(c: Config)
    requires Inv(c) && c.at.Reconciling?
    ensures Inv(DoRecover(c))
  {
    hide SystemOk, FirstPending, SentOnce, Keyed, GrantsBound, Numbered, Lockstep, RowsKnown, RepliesFit, Settle, GiveUp, StepsArePrefix;
    var plan := c.at.plan;
    SagaParts(c.sys, plan);
    PendingFirst(Record(c.sys, plan));
    var pending := FirstPending(Record(c.sys, plan).dispatches);
    if pending.Some? && pending.value.request.key !in c.sys.adapter.results {
      SettleInv(c, plan, "READBACK_COULD_NOT_RESOLVE_DISPATCH", c.at.origin);
    }
  }

  /** Only grants change: sagas whose own grants stay keep everything. */
  lemma GrantsKeep(sys: System, st: Store)
    requires SystemOk(sys) && st == sys.store.(reservations := st.reservations, approvals := st.approvals)
    requires GrantsBound(st)
    requires forall k :: k in st.sagas ==> SameGrants(sys.store, st, k) || SagaOk(sys.(store := st), k)
    ensures SystemOk(sys.(store := st))
  {
    hide SagaOk, GrantsBound, SentOnce, Numbered, SameGrants;
    SystemParts(sys);
    var later := sys.(store := st);
    assert Keyed(st) by {
      forall k | k in st.sagas ensures KeyedAt(st, k) {
        assert KeyedAt(sys.store, k);
      }
    }
    GrantsKeepSent(sys, st);
    forall k | k in st.sagas ensures SagaOk(later, k) {
      if SameGrants(sys.store, st, k) {
        SagaFrame(sys, later, k);
      }
    }
  }

  lemma GrantsKeepSent(sys: System, st: Store)
    requires SentOnce(sys) && Numbered(sys) && st == sys.store.(reservations := st.reservations, approvals := st.approvals)
    ensures SentOnce(sys.(store := st)) && Numbered(sys.(store := st))
  {
    hide Times;
    assert forall key: OpKey :: Dispatched(st, key) <==> Dispatched(sys.store, key);
  }

  lemma UseKeeps(sys: System, plan: Plan)
    requires SystemOk(sys) && Loaded(sys.store, plan) && CanConsume(sys.store, plan)
    ensures SystemOk(sys.(store := ConsumeAuthority(sys.store, plan).0))
    ensures AuthorityUsed(ConsumeAuthority(sys.store, plan).0, plan)
  {
    hide SystemOk, SagaOk, SentOnce, Numbered, Keyed, Shaped;
    var st := ConsumeAuthority(sys.store, plan).0;
    SystemParts(sys);
    forall k | k in st.sagas ensures SameGrants(sys.store, st, k) || SagaOk(sys.(store := st), k) {
      if k == plan.request.execution {
        UseKeepsOwn(sys, plan);
      } else {
        UseKeepsOthers(sys, plan, k);
      }
    }
    GrantsKeep(sys, st);
  }

  lemma UseKeepsOthers(sys: System, plan: Plan, k: string)
    requires SystemOk(sys) && CanConsume(sys.store, plan)
    requires k in sys.store.sagas && k != plan.request.execution
    ensures SameGrants(sys.store, ConsumeAuthority(sys.store, plan).0, k)
  {
    hide Keyed, SentOnce, Numbered, Shaped, RowsKnown, Accounted, Truthful, RepliesFit;
    assert SagaOk(sys, k);
  }

  lemma UseKeepsOwn(sys: System, plan: Plan)
    requires SystemOk(sys) && Loaded(sys.store, plan) && CanConsume(sys.store, plan)
    ensures SagaOk(sys.(store := ConsumeAuthority(sys.store, plan).0), plan.request.execution)
  {
    hide SystemOk, Shaped, Owns, Unregistered;
    var later, k := sys.(store := ConsumeAuthority(sys.store, plan).0), plan.request.execution;
    SagaParts(sys, plan);
    assert forall s, c :: Stands(later, k, s, c) <==> Stands(sys, k, s, c);
  }

  lemma UseInv(c: Config)
    requires Inv(c) && c.at.Replied?
    ensures Inv(DoUseAuthority(c))
  {
    hide SystemOk, Settle, GiveUp, AuthorityUsed;
    var plan := c.at.plan;
    if CanConsume(c.sys.store, plan) {
      UseKeeps(c.sys, plan);
    } else {
      SettleInv(c, plan, "FIRST_WRITE_AUTHORITY_RECONCILIATION_FAILED", c.at.origin);
    }
  }

  // ---------- registration ----------

  lemma RegisterKeeps(sys: System, plan: Plan, step: Step, created: seq<Created>, reply: Reply)
    requires SystemOk(sys) && Awaits(sys, plan, step) && Answers(sys, plan, step, reply) && reply.created == created
    requires Register(sys.store, plan.request.execution, step, created).1.Ok?
    ensures SystemOk(sys.(store := Register(sys.store, plan.request.execution, step, created).0))
  {
    hide SystemOk, Shaped, Covered, KeepsSent, SagaOk, Keyed, GrantsBound, SentOnce, Numbered, Lockstep, Accounted,
         RowsKnown, RepliesFit, Bounded, RowsAnswered, AuthorityUsed, RowsOf, RefsOf, IsPending, DistinctRefs;
    var record := Record(sys, plan);
    SystemParts(sys);
    SagaParts(sys, plan);
    var registered := record.(objects := record.objects + RowsOf(created, step));
    var index := sys.store.index + RefsOf(created);
    RegisterShape(record, registered.objects);
    SettledSent(sys, plan);
    assert KeepsSent(sys, plan, registered) by { SameSent(sys, plan, registered); }
    RegisterBounded(sys, plan, step, reply);
    RegisterAnswered(sys, plan, step, reply);
    RegisterCovers(sys, plan, step, reply);
    RecordKeeps(sys, plan, registered, index);
    assert WithRecord(sys, plan, registered, index)
        == sys.(store := Register(sys.store, plan.request.execution, step, created).0);
  }

  lemma RegisterShape(record: SagaRecord, objects: seq<ObjectRow>)
    requires Shaped(record)
    ensures Shaped(record.(objects := objects))
  {
  }

  lemma SameSent(sys: System, plan: Plan, record: SagaRecord)
    requires Loaded(sys.store, plan) && KeepsSent(sys, plan, Record(sys, plan))
    requires record.dispatches == Record(sys, plan).dispatches
    ensures KeepsSent(sys, plan, record)
  {
  }

  lemma RegisterBounded(sys: System, plan: Plan, step: Step, reply: Reply)
    requires Numbered(sys) && Answers(sys, plan, step, reply)
    ensures Bounded(sys, sys.store.index + RefsOf(reply.created))
  {
  }

  lemma RegisterAnswered(sys: System, plan: Plan, step: Step, reply: Reply)
    requires Loaded(sys.store, plan) && RowsKnown(sys, plan.request.execution) && Answers(sys, plan, step, reply)
    requires Register(sys.store, plan.request.execution, step, reply.created).1.Ok?
    ensures var record := Record(sys, plan);
            RowsAnswered(sys, plan.request.execution, record.(objects := record.objects + RowsOf(reply.created, step)),
                         sys.store.index + RefsOf(reply.created))
  {
    NewRowsDistinct(Record(sys, plan).objects, sys.store.index, reply.created, step);
  }

  lemma NewRowsDistinct(objects: seq<ObjectRow>, index: set<ObjectRef>, created: seq<Created>, step: Step)
    requires DistinctRows(objects) && forall row :: row in objects ==> row.created.ref in index
    requires DistinctRefs(created) && RefsOf(created) * index == {}
    ensures DistinctRows(objects + RowsOf(created, step))
  {
    var rows := RowsOf(created, step);
    forall i | 0 <= i < |rows| ensures rows[i].created.ref in RefsOf(created) {
      assert rows[i].created == created[i];
    }
    hide RefsOf;
    forall i | 0 <= i < |objects| ensures objects[i].created.ref !in RefsOf(created) {
      assert objects[i] in objects;
      assert objects[i].created.ref !in RefsOf(created) * index;
    }
  }

  lemma RegisterCovers(sys: System, plan: Plan, step: Step, reply: Reply)
    requires Loaded(sys.store, plan) && Accounted(sys, plan.request.execution) && Answers(sys, plan, step, reply)
    ensures var record := Record(sys, plan);
            Covered(sys, plan.request.execution, record.(objects := record.objects + RowsOf(reply.created, step)))
  {
    hide IsPending;
    var record, rows := Record(sys, plan), RowsOf(reply.created, step);
    var k := plan.request.execution;
    forall s, c | Stands(sys, k, s, c)
      ensures Owns(record.objects + rows, c.ref) || Unregistered(record.(objects := record.objects + rows), s)
    {
      if s == step {
        var i :| 0 <= i < |reply.created| && reply.created[i] == c;
        assert rows[i] in record.objects + rows;
      } else if Owns(record.objects, c.ref) {
        var row :| row in record.objects && row.created.ref == c.ref && !row.compensated;
        assert row in record.objects + rows;
      }
    }
  }

  lemma RegisterInv(c: Config, plan: Plan, step: Step, reply: Reply, origin: Origin)
    requires SystemOk(c.sys) && Awaits(c.sys, plan, step) && Answers(c.sys, plan, step, reply)
    requires step != CampaignAdd || AuthorityUsed(c.sys.store, plan)
    ensures Inv(RegisterAt(c, plan, step, reply.created, origin))
  {
    hide SystemOk, Shaped, Accounted, RowsKnown, RepliesFit, Truthful, IsPending, DistinctRefs, RefsOf;
    SagaParts(c.sys, plan);
    PendingRow(c.sys, plan, step);
    if Register(c.sys.store, plan.request.execution, step, reply.created).1.Ok? {
      RegisterKeeps(c.sys, plan, step, reply.created, reply);
      var rows := RowsOf(reply.created, step);
      assert rows[0].step == step && rows[0] in Record(c.sys, plan).objects + rows;
    }
  }

  // ---------- closing a step ----------

  /** Every object of the step that stands has its row, so the step's dispatch may be closed. */
  ghost predicate StepOwned(sys: System, plan: Plan, step: Step)
    requires Loaded(sys.store, plan)
  {
    forall c :: Stands(sys, plan.request.execution, step, c) ==> Owns(Record(sys, plan).objects, c.ref)
  }

  lemma CloseSent(record: SagaRecord, step: Step, sys: System, plan: Plan)
    requires SentOnce(sys) && Loaded(sys.store, plan) && record == Record(sys, plan)
    ensures KeepsSent(sys, plan, record.(dispatches := CloseDispatch(record.dispatches, step)))
    ensures KeepsSent(sys, plan, record)
  {
    hide Times, HasDispatch, CloseDispatch;
    SettledSent(sys, plan);
    forall s ensures HasDispatch(CloseDispatch(record.dispatches, step), s) <==> HasDispatch(record.dispatches, s) {
      CloseKeepsDispatches(record.dispatches, step, s);
    }
  }

  lemma CloseCovers(sys: System, plan: Plan, step: Step, after: SagaRecord)
    requires SystemOk(sys) && Running(sys.store, plan) && StepOwned(sys, plan, step)
    requires Ordinal(step) == |Record(sys, plan).steps|
    requires after.objects == Record(sys, plan).objects
    ensures Covered(sys, plan.request.execution, after)
  {
    hide SystemOk, Shaped, Stands, Owns, Lockstep, RowsKnown, RepliesFit, HasObjectsOf, IsPending, Truthful;
    SagaParts(sys, plan);
    var k := plan.request.execution;
    forall s, c | Stands(sys, k, s, c) ensures Owns(after.objects, c.ref) || Unregistered(after, s) {
      PendingIsNext(Record(sys, plan), s);
    }
  }

  lemma CloseKeeps(sys: System, plan: Plan, step: Step, response: Response)
    requires SystemOk(sys) && Running(sys.store, plan) && Ordinal(step) == |Record(sys, plan).steps|
    requires IsWrite(step) || NothingPending(Record(sys, plan))
    requires StepOwned(sys, plan, step) && AuthorityUsed(sys.store, plan)
    ensures var r := CloseStep(sys, plan, step, response);
            SystemOk(r.0) && (r.1.Done? ==> NothingPending(Record(r.0, plan)))
  {
    hide SystemOk, Shaped, Covered, KeepsSent, StatusTruthful, SagaOk, Keyed, GrantsBound, SentOnce, Numbered, Lockstep,
         RowsKnown, RepliesFit, AuthorityUsed, StepOwned, CloseDispatch, IsPending, HasStep, Accounted, Truthful;
    var record := Record(sys, plan);
    SystemParts(sys);
    SagaParts(sys, plan);
    CompleteShape(record, step, response);
    var completed := CompleteRecord(record, step, response);
    if completed.Ok? {
      var after := completed.value;
      CloseSent(record, step, sys, plan);
      SameSent(sys, plan, record);
      assert KeepsSent(sys, plan, after) by { SentByDispatches(sys, plan, record, step, after); }
      CloseCovers(sys, plan, step, after);
      assert StatusTruthful(sys, plan.request.execution, after) by { InFlightTruthful(sys, plan.request.execution, after); }
      RowsKeep(sys, plan, after);
    }
  }

  lemma SentByDispatches(sys: System, plan: Plan, record: SagaRecord, step: Step, after: SagaRecord)
    requires KeepsSent(sys, plan, record.(dispatches := CloseDispatch(record.dispatches, step))) && KeepsSent(sys, plan, record)
    requires after.dispatches == CloseDispatch(record.dispatches, step) || after.dispatches == record.dispatches
    ensures KeepsSent(sys, plan, after)
  {
  }

  lemma InFlightTruthful(sys: System, k: string, record: SagaRecord)
    requires record.status == InFlight
    ensures StatusTruthful(sys, k, record)
  {
  }

  lemma CloseAtInv(c: Config, plan: Plan, step: Step, response: Response)
    requires SystemOk(c.sys) && Running(c.sys.store, plan) && Ordinal(step) == |Record(c.sys, plan).steps|
    requires IsWrite(step) || NothingPending(Record(c.sys, plan))
    requires StepOwned(c.sys, plan, step) && AuthorityUsed(c.sys.store, plan)
    ensures Inv(CloseAt(c, plan, step, response))
  {
    hide SystemOk, StepOwned, AuthorityUsed, CloseStep;
    CloseKeeps(c.sys, plan, step, response);
  }

  lemma OwnedWhenRegistered(sys: System, plan: Plan, step: Step)
    requires SystemOk(sys) && Awaits(sys, plan, step) && HasObjectsOf(Record(sys, plan).objects, step)
    ensures AllOwned(sys, plan.request.execution) && StepOwned(sys, plan, step)
  {
    hide SystemOk, Shaped, Lockstep, RowsKnown, Truthful, RepliesFit, HasObjectsOf, IsPending, Stands, Owns;
    SagaParts(sys, plan);
    PendingRow(sys, plan, step);
  }

  lemma OwnedWhenNothingCreated(sys: System, plan: Plan, step: Step)
    requires Loaded(sys.store, plan)
    requires StepKey(plan.request.execution, step) in sys.adapter.results
    requires sys.adapter.results[StepKey(plan.request.execution, step)].created == []
    ensures StepOwned(sys, plan, step)
  {
  }

  /** After the first completed step the authority is used. */
  lemma UsedByThen(sys: System, plan: Plan)
    requires SystemOk(sys) && Loaded(sys.store, plan) && Record(sys, plan).steps != []
    ensures AuthorityUsed(sys.store, plan)
  {
    hide SystemOk, Shaped, Accounted, RowsKnown, Truthful, RepliesFit;
    SagaParts(sys, plan);
  }

  lemma CloseRegisteredInv(c: Config)
    requires Inv(c) && c.at.Registered?
    ensures Inv(DoClose(c))
  {
    hide SystemOk, StepOwned, AllOwned, AuthorityUsed, CloseAt, StartCompensation, TypesMatch, HasObjectsOf, Shaped, Lockstep,
         RowsKnown, Truthful, RepliesFit, Accounted;
    var plan, step := c.at.plan, c.at.step;
    SagaParts(c.sys, plan);
    PendingRow(c.sys, plan, step);
    OwnedWhenRegistered(c.sys, plan, step);
    if TypesMatch(c.at.created, step) {
      CloseAtInv(c, plan, step, Ids(CreatedRefs(c.at.created)));
    } else {
      CompensationStarts(c.sys, plan, "CREATED_OBJECT_TYPE_MISMATCH");
    }
  }

  lemma CloseRepliedInv(c: Config)
    requires Inv(c) && c.at.Replied? && c.at.step in {ModerationSubmit, CampaignLaunch}
    ensures Inv(DoClose(c))
  {
    hide SystemOk, StepOwned, AllOwned, AuthorityUsed, CloseAt, StartCompensation, Settle, Shaped, Lockstep,
         RowsKnown, Truthful, Accounted;
    var plan, step := c.at.plan, c.at.step;
    SagaParts(c.sys, plan);
    PendingRow(c.sys, plan, step);
    assert ReplyFits(c.at.reply, step);
    OwnedWhenNothingCreated(c.sys, plan, step);
    UsedByThen(c.sys, plan);
    CloseAtInv(c, plan, step, if step == ModerationSubmit then States(StatesOf(c.at.reply.readback)) else States([On]));
  }
}
