/** How far a saga was when compensation deleted something, and which rows it has: what every event keeps besides the invariant. */
module SagaProgress {
  import opened CampaignTypes
  import opened SagaStore
  import opened SagaService
  import opened SagaMachine
  import opened SagaSafety

  // ---------- rows and replies ----------

  /** The rows of the step at position `n`, as the adapter answered it. */
  function RepliedAt(results: map<OpKey, Reply>, k: string, n: nat): seq<ObjectRow>
    requires n < |SAGA_STEPS|
  {
    var step := SAGA_STEPS[n];
    if IsAdd(step) && StepKey(k, step) in results then RowsOf(results[StepKey(k, step)].created, step) else []
  }

  /** The rows of the first `n` steps, as the adapter answered them. */
  function RepliedRows(results: map<OpKey, Reply>, k: string, n: nat): seq<ObjectRow>
    requires n <= |SAGA_STEPS|
  {
    if n == 0 then [] else RepliedRows(results, k, n - 1) + RepliedAt(results, k, n - 1)
  }

  /** The rows as they were when they were registered. */
  function AsRegistered(objects: seq<ObjectRow>): seq<ObjectRow> {
    seq(|objects|, i requires 0 <= i < |objects| => objects[i].(compensated := false))
  }

  /** The adapter remembers the delete of an object of the saga. */
  ghost predicate DeleteMade(results: map<OpKey, Reply>, k: string) {
    exists ref :: CompensationKey(k, ref) in results
  }

  /** The pending step will never complete: it has no answer, or its objects are registered already. */
  predicate Doomed(record: SagaRecord, results: map<OpKey, Reply>, k: string) {
    && |record.steps| < |SAGA_STEPS| && !NothingPending(record)
    && var step := SAGA_STEPS[|record.steps|];
       StepKey(k, step) !in results || HasObjectsOf(record.objects, step)
  }

  /** Every completed add step was answered, and the rows are its and the earlier steps' answers, in step order. */
  ghost predicate RowsReplied(record: SagaRecord, results: map<OpKey, Reply>, k: string) {
    var n := |record.steps|;
    && n <= |SAGA_STEPS|
    && (forall i :: 0 <= i < n && IsAdd(SAGA_STEPS[i]) ==> StepKey(k, SAGA_STEPS[i]) in results)
    && (AsRegistered(record.objects) == RepliedRows(results, k, n)
        || (n < |SAGA_STEPS| && !NothingPending(record) && StepKey(k, SAGA_STEPS[n]) in results
            && AsRegistered(record.objects) == RepliedRows(results, k, n + 1)))
  }

  /** Compensated rows and remembered deletes belong together. */
  ghost predicate DeletesMarked(record: SagaRecord, results: map<OpKey, Reply>, k: string) {
    && (forall row :: row in record.objects && row.compensated ==> CompensationKey(k, row.created.ref) in results)
    && (forall ref :: CompensationKey(k, ref) in results ==> exists row :: row in record.objects && row.created.ref == ref)
  }

  /** A dispatched write was answered with a reply of its own kind. */
  ghost predicate InKind(record: SagaRecord, results: map<OpKey, Reply>, k: string) {
    forall row :: row in record.dispatches && StepKey(k, row.step) in results ==>
      results[StepKey(k, row.step)].service == row.request.service && results[StepKey(k, row.step)].verb == row.request.verb
  }

  predicate FarEnough(record: SagaRecord, results: map<OpKey, Reply>, k: string) {
    |record.steps| < |SAGA_STEPS| && (|record.steps| >= 5 || Doomed(record, results, k))
  }

  /** Something was deleted only in a saga that had submitted its ads or whose pending step is doomed, and not after the last step. */
  ghost predicate Tidy(record: SagaRecord, results: map<OpKey, Reply>, k: string) {
    && RowsReplied(record, results, k)
    && DeletesMarked(record, results, k)
    && InKind(record, results, k)
    && (DeleteMade(results, k) ==> FarEnough(record, results, k))
  }

  ghost predicate AllTidy(sys: System) {
    && (forall k :: k in sys.store.sagas ==> Tidy(sys.store.sagas[k], sys.adapter.results, k))
    && (forall key: OpKey :: key.CompensationKey? && key in sys.adapter.results ==> key.execution in sys.store.sagas)
  }

  /** Nothing was deleted yet, unless the ads were submitted. */
  ghost predicate Forward(sys: System, plan: Plan)
    requires Loaded(sys.store, plan)
  {
    DeleteMade(sys.adapter.results, plan.request.execution) ==> 5 <= |Record(sys, plan).steps| < |SAGA_STEPS|
  }

  ghost predicate PositionTidy(c: Config) {
    match c.at
    case Claimed(plan, _, _) => Loaded(c.sys.store, plan) && Forward(c.sys, plan)
    case Registered(plan, _, _, _) => Loaded(c.sys.store, plan) && Forward(c.sys, plan)
    case Compensating(plan, _, _, _, _) =>
      Loaded(c.sys.store, plan) && FarEnough(Record(c.sys, plan), c.sys.adapter.results, plan.request.execution)
    case Deleted(plan, ref, _, _, _) =>
      && Loaded(c.sys.store, plan) && FarEnough(Record(c.sys, plan), c.sys.adapter.results, plan.request.execution)
      && CompensationKey(plan.request.execution, ref) in c.sys.adapter.results
    case _ => true
  }

  ghost predicate Orderly(c: Config) {
    AllTidy(c.sys) && PositionTidy(c)
  }

  // ---------- sagas an event does not touch ----------

  ghost predicate SameKeys(results: map<OpKey, Reply>, later: map<OpKey, Reply>, k: string) {
    forall key: OpKey :: !key.RunKey? && key.execution == k ==>
      (key in results <==> key in later) && (key in results ==> results[key] == later[key])
  }

  /** Remembered answers stay, and at most one is new. */
  ghost predicate Grows(results: map<OpKey, Reply>, later: map<OpKey, Reply>, key: OpKey) {
    && (forall other: OpKey :: other in results ==> other in later && later[other] == results[other])
    && (forall other: OpKey :: other in later ==> other in results || other == key)
  }

  lemma {:induction false} RepliedSame(results: map<OpKey, Reply>, later: map<OpKey, Reply>, k: string, n: nat)
    requires n <= |SAGA_STEPS|
    requires forall i :: 0 <= i < n && IsAdd(SAGA_STEPS[i]) ==>
               var key := StepKey(k, SAGA_STEPS[i]);
               (key in results <==> key in later) && (key in results ==> results[key] == later[key])
    ensures RepliedRows(later, k, n) == RepliedRows(results, k, n)
  {
    if n > 0 {
      RepliedSame(results, later, k, n - 1);
    }
  }

  lemma TidyFrame(record: SagaRecord, results: map<OpKey, Reply>, later: map<OpKey, Reply>, k: string)
    requires Tidy(record, results, k) && SameKeys(results, later, k)
    ensures Tidy(record, later, k)
  {
    hide NothingPending, HasObjectsOf, AsRegistered, RepliedRows;
    RepliedSame(results, later, k, |record.steps|);
    if |record.steps| < |SAGA_STEPS| {
      RepliedSame(results, later, k, |record.steps| + 1);
    }
  }

  /** Enough to look at one saga when the others keep their rows and their remembered answers. */
  lemma OneSaga(sys: System, later: System, k: string)
    requires AllTidy(sys)
    requires forall j :: j in later.store.sagas && j != k ==>
               j in sys.store.sagas && later.store.sagas[j] == sys.store.sagas[j]
               && SameKeys(sys.adapter.results, later.adapter.results, j)
    requires sys.store.sagas.Keys <= later.store.sagas.Keys
    requires k in later.store.sagas ==> Tidy(later.store.sagas[k], later.adapter.results, k)
    requires forall key: OpKey :: key.CompensationKey? && key in later.adapter.results ==>
               key in sys.adapter.results || key.execution in later.store.sagas
    ensures AllTidy(later)
  {
    hide Tidy, SameKeys;
    forall j | j in later.store.sagas ensures Tidy(later.store.sagas[j], later.adapter.results, j) {
      if j != k {
        TidyFrame(sys.store.sagas[j], sys.adapter.results, later.adapter.results, j);
      }
    }
  }

  lemma GrowsSame(results: map<OpKey, Reply>, later: map<OpKey, Reply>, key: OpKey, k: string)
    requires Grows(results, later, key) && (key.RunKey? || key.execution != k)
    ensures SameKeys(results, later, k)
  {
  }

  /** One saga's rows change, and the adapter does not. */
  lemma RecordTidy(sys: System, later: System, plan: Plan)
    requires AllTidy(sys) && Loaded(sys.store, plan) && later.adapter.results == sys.adapter.results
    requires plan.request.execution in later.store.sagas
    requires later.store.sagas == sys.store.sagas[plan.request.execution := later.store.sagas[plan.request.execution]]
    requires Tidy(later.store.sagas[plan.request.execution], sys.adapter.results, plan.request.execution)
    ensures AllTidy(later)
  {
    hide Tidy;
    forall j ensures SameKeys(sys.adapter.results, later.adapter.results, j) {
    }
    OneSaga(sys, later, plan.request.execution);
  }

  // ---------- rows ----------

  lemma AsRegisteredConcat(first: seq<ObjectRow>, created: seq<Created>, step: Step)
    ensures AsRegistered(first + RowsOf(created, step)) == AsRegistered(first) + RowsOf(created, step)
  {
  }

  lemma AsRegisteredRow(objects: seq<ObjectRow>, i: nat)
    requires i < |objects|
    ensures |AsRegistered(objects)| == |objects| && AsRegistered(objects)[i] == objects[i].(compensated := false)
  {
  }

  lemma {:induction false} RowsStepsBelow(results: map<OpKey, Reply>, k: string, n: nat)
    requires n <= |SAGA_STEPS|
    ensures forall row :: row in RepliedRows(results, k, n) ==> Ordinal(row.step) < n
  {
    if n > 0 {
      RowsStepsBelow(results, k, n - 1);
      StepOrdinal(n - 1);
      hide IsAdd, Ordinal;
    }
  }

  lemma StepOrdinal(n: nat)
    requires n < |SAGA_STEPS|
    ensures Ordinal(SAGA_STEPS[n]) == n
  {
  }

  lemma OrdinalStep(step: Step)
    ensures Ordinal(step) < |SAGA_STEPS| && SAGA_STEPS[Ordinal(step)] == step
  {
  }

  /** Objects of the next step are registered exactly when the rows go one step further. */
  lemma {:induction false} RegisteredRows(record: SagaRecord, results: map<OpKey, Reply>, k: string, n: nat)
    requires RowsReplied(record, results, k) && n == |record.steps| < |SAGA_STEPS| && HasObjectsOf(record.objects, SAGA_STEPS[n])
    ensures !NothingPending(record) && StepKey(k, SAGA_STEPS[n]) in results
    ensures AsRegistered(record.objects) == RepliedRows(results, k, n + 1)
  {
    var row :| row in record.objects && row.step == SAGA_STEPS[n];
    var i :| 0 <= i < |record.objects| && record.objects[i] == row;
    AsRegisteredRow(record.objects, i);
    RowsStepsBelow(results, k, n);
    StepOrdinal(n);
    hide AsRegistered, RepliedRows, NothingPending;
  }

  // ---------- the transactions ----------

  lemma TidyCancelled(record: SagaRecord, results: map<OpKey, Reply>, k: string, later: SagaRecord)
    requires Tidy(record, results, k) && later == record.(dispatches := later.dispatches)
    requires forall row :: row in later.dispatches ==> row in record.dispatches
    requires |record.steps| < |SAGA_STEPS| ==> StepKey(k, SAGA_STEPS[|record.steps|]) !in results
    requires DeleteMade(results, k) ==> 5 <= |record.steps| < |SAGA_STEPS|
    ensures Tidy(later, results, k)
  {
    hide NothingPending, HasObjectsOf, AsRegistered, RepliedRows, DeleteMade;
  }

  lemma TidyClaimed(record: SagaRecord, results: map<OpKey, Reply>, k: string, later: SagaRecord)
    requires Tidy(record, results, k) && later == record.(dispatches := later.dispatches) && NothingPending(record)
    requires forall row :: row in later.dispatches ==> row in record.dispatches || StepKey(k, row.step) !in results
    ensures Tidy(later, results, k)
    ensures DeleteMade(results, k) ==> 5 <= |record.steps| < |SAGA_STEPS|
  {
    hide NothingPending, HasObjectsOf, AsRegistered, RepliedRows, DeleteMade;
  }

  lemma TidySettled(record: SagaRecord, results: map<OpKey, Reply>, k: string, status: SagaStatus, detail: string)
    requires Tidy(record, results, k)
    ensures Tidy(record.(status := status, detail := detail), results, k)
  {
    hide HasObjectsOf, AsRegistered, RepliedRows, DeleteMade;
  }

  lemma TidyMarked(record: SagaRecord, results: map<OpKey, Reply>, k: string, ref: ObjectRef)
    requires Tidy(record, results, k) && CompensationKey(k, ref) in results
    ensures Tidy(record.(objects := MarkRows(record.objects, ref)), results, k)
    ensures FarEnough(record, results, k) ==> FarEnough(record.(objects := MarkRows(record.objects, ref)), results, k)
  {
    MarkedSame(record.objects, ref);
    MarkedHas(record.objects, ref);
    hide AsRegistered, RepliedRows, DeleteMade, MarkRows, HasObjectsOf;
    assert DeletesMarked(record.(objects := MarkRows(record.objects, ref)), results, k);
    hide DeletesMarked;
  }

  lemma MarkedSame(objects: seq<ObjectRow>, ref: ObjectRef)
    ensures AsRegistered(MarkRows(objects, ref)) == AsRegistered(objects)
  {
  }

  lemma MarkedHas(objects: seq<ObjectRow>, ref: ObjectRef)
    ensures forall step :: HasObjectsOf(objects, step) ==> HasObjectsOf(MarkRows(objects, ref), step)
    ensures forall row :: row in MarkRows(objects, ref) && row.compensated ==>
              row.created.ref == ref || exists before :: before in objects && before.compensated && before.created == row.created
    ensures forall row :: row in objects ==> exists after :: after in MarkRows(objects, ref) && after.created == row.created
  {
    var marked := MarkRows(objects, ref);
    forall row | row in objects ensures exists after :: after in marked && after.created == row.created && after.step == row.step {
      var i :| 0 <= i < |objects| && objects[i] == row;
      assert marked[i] in marked;
    }
    forall row | row in marked && row.compensated && row.created.ref != ref
      ensures exists before :: before in objects && before.compensated && before.created == row.created
    {
      var i :| 0 <= i < |marked| && marked[i] == row;
      assert objects[i] in objects;
    }
  }

  lemma TidyRegistered(record: SagaRecord, results: map<OpKey, Reply>, k: string, index: set<ObjectRef>, step: Step, created: seq<Created>)
    requires Tidy(record, results, k) && IsAdd(step) && Ordinal(step) == |record.steps| && !NothingPending(record)
    requires forall row :: row in record.objects ==> row.created.ref in index
    requires StepKey(k, step) in results && results[StepKey(k, step)].created == created
    requires RegisterRecord(record, index, step, created).Ok?
    ensures Tidy(RegisterRecord(record, index, step, created).value, results, k)
    ensures !DeleteMade(results, k)
  {
    hide DeleteMade, IsPending, DistinctRefs, RefsOf;
    OrdinalStep(step);
    NotRegisteredYet(record, results, k, index, step, created);
    AsRegisteredConcat(record.objects, created, step);
    assert RowsOf(created, step)[0].step == step && RowsOf(created, step)[0] in record.objects + RowsOf(created, step);
    assert RepliedRows(results, k, |record.steps| + 1) == RepliedRows(results, k, |record.steps|) + RowsOf(created, step);
    MoreMarked(record, results, k, RowsOf(created, step));
    hide AsRegistered, RowsOf, RepliedRows, DeletesMarked;
  }

  lemma MoreMarked(record: SagaRecord, results: map<OpKey, Reply>, k: string, more: seq<ObjectRow>)
    requires DeletesMarked(record, results, k) && forall row <- more :: !row.compensated
    ensures DeletesMarked(record.(objects := record.objects + more), results, k)
  {
    forall ref | CompensationKey(k, ref) in results ensures exists row :: row in record.objects + more && row.created.ref == ref {
      var row :| row in record.objects && row.created.ref == ref;
      assert row in record.objects + more;
    }
  }

  /** What can be registered was not registered before. */
  lemma {:induction false} NotRegisteredYet(
    record: SagaRecord, results: map<OpKey, Reply>, k: string, index: set<ObjectRef>, step: Step, created: seq<Created>)
    requires RowsReplied(record, results, k) && IsAdd(step) && Ordinal(step) == |record.steps|
    requires forall row :: row in record.objects ==> row.created.ref in index
    requires StepKey(k, step) in results && results[StepKey(k, step)].created == created
    requires RegisterRecord(record, index, step, created).Ok?
    ensures !HasObjectsOf(record.objects, step)
    ensures AsRegistered(record.objects) == RepliedRows(results, k, |record.steps|)
  {
    hide NothingPending, IsPending, DistinctRefs, AsRegistered, RepliedRows, RowsOf;
    OrdinalStep(step);
    assert created[0].ref in RefsOf(created) && created[0].ref !in RefsOf(created) * index;
    if HasObjectsOf(record.objects, step) {
      RegisteredRows(record, results, k, |record.steps|);
    }
    if AsRegistered(record.objects) == RepliedRows(results, k, |record.steps| + 1) {
      RegisteredInIndex(record, results, k, index, step);
    }
  }

  lemma {:induction false} RegisteredInIndex(record: SagaRecord, results: map<OpKey, Reply>, k: string, index: set<ObjectRef>, step: Step)
    requires IsAdd(step) && StepKey(k, step) in results && results[StepKey(k, step)].created != []
    requires AsRegistered(record.objects) == RepliedRows(results, k, Ordinal(step) + 1)
    requires forall row :: row in record.objects ==> row.created.ref in index
    ensures results[StepKey(k, step)].created[0].ref in index
  {
    OrdinalStep(step);
    var i, created := |RepliedRows(results, k, Ordinal(step))|, results[StepKey(k, step)].created;
    AsRegisteredRow(record.objects, i);
    assert AsRegistered(record.objects)[i] == RowsOf(created, step)[0];
    assert record.objects[i] in record.objects;
  }

  /** A step completes when its answer is registered, or when it creates nothing. */
  lemma TidyCompleted(record: SagaRecord, results: map<OpKey, Reply>, k: string, later: SagaRecord)
    requires Tidy(record, results, k) && |later.steps| == |record.steps| + 1 <= |SAGA_STEPS| && later.objects == record.objects
    requires InKind(record, results, k) ==> InKind(later, results, k)
    requires IsAdd(SAGA_STEPS[|record.steps|]) ==> HasObjectsOf(record.objects, SAGA_STEPS[|record.steps|])
    requires DeleteMade(results, k) ==> 4 <= |record.steps| < 7
    ensures Tidy(later, results, k)
  {
    hide NothingPending, HasObjectsOf, AsRegistered, DeleteMade, RepliedRows;
    var n := |record.steps|;
    if IsAdd(SAGA_STEPS[n]) {
      RegisteredRows(record, results, k, n);
    } else {
      NothingReplied(results, k, n);
    }
  }

  lemma NothingReplied(results: map<OpKey, Reply>, k: string, n: nat)
    requires n < |SAGA_STEPS| && !IsAdd(SAGA_STEPS[n])
    ensures RepliedRows(results, k, n + 1) == RepliedRows(results, k, n)
  {
  }

  lemma ClosedInKind(record: SagaRecord, results: map<OpKey, Reply>, k: string, later: SagaRecord, step: Step)
    requires InKind(record, results, k)
    requires later.dispatches == record.dispatches || later.dispatches == CloseDispatch(record.dispatches, step)
    ensures InKind(later, results, k)
  {
    forall row | row in later.dispatches
      ensures exists before :: before in record.dispatches && before.step == row.step && before.request == row.request
    {
      var i :| 0 <= i < |later.dispatches| && later.dispatches[i] == row;
      assert record.dispatches[i] in record.dispatches;
    }
  }

  // ---------- the calls ----------

  lemma AnsweredInKind(
    record: SagaRecord, results: map<OpKey, Reply>, later: map<OpKey, Reply>, k: string, step: Step, request: DirectRequest)
    requires InKind(record, results, k) && Grows(results, later, StepKey(k, step))
    requires forall row :: row in record.dispatches && row.step == step ==> row.request == request
    requires StepKey(k, step) in later ==>
               later[StepKey(k, step)].service == request.service && later[StepKey(k, step)].verb == request.verb
    ensures InKind(record, later, k)
  {
  }

  /** The answer of a pending write is remembered, while nothing was deleted or the ads are submitted. */
  lemma TidyAnswered(record: SagaRecord, results: map<OpKey, Reply>, later: map<OpKey, Reply>, k: string)
    requires Tidy(record, results, k) && |record.steps| < |SAGA_STEPS|
    requires Grows(results, later, StepKey(k, SAGA_STEPS[|record.steps|]))
    requires StepKey(k, SAGA_STEPS[|record.steps|]) !in results
    requires DeleteMade(results, k) ==> 5 <= |record.steps|
    requires InKind(record, results, k) ==> InKind(record, later, k)
    ensures Tidy(record, later, k)
    ensures DeleteMade(later, k) ==> DeleteMade(results, k)
  {
    hide NothingPending, HasObjectsOf, AsRegistered, RepliedRows;
    var n := |record.steps|;
    forall i | 0 <= i < n && IsAdd(SAGA_STEPS[i]) ensures StepKey(k, SAGA_STEPS[i]) in results {
      StepOrdinal(i);
      StepOrdinal(n);
    }
    RepliedSame(results, later, k, n);
  }

  /** A delete is remembered in a saga that is far enough. */
  lemma TidyDeleted(record: SagaRecord, results: map<OpKey, Reply>, later: map<OpKey, Reply>, k: string, ref: ObjectRef)
    requires Tidy(record, results, k) && Grows(results, later, CompensationKey(k, ref)) && FarEnough(record, results, k)
    requires exists row :: row in record.objects && row.created.ref == ref
    ensures Tidy(record, later, k) && FarEnough(record, later, k)
  {
    hide NothingPending, HasObjectsOf, AsRegistered, RepliedRows;
    var n := |record.steps|;
    assert forall s :: StepKey(k, s) in results <==> StepKey(k, s) in later;
    RepliedSame(results, later, k, n);
    RepliedSame(results, later, k, n + 1);
  }
}
