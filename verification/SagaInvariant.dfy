/** The invariant of the saga machine over the whole store, the adapter and the service's position. */
module SagaInvariant {
  import opened Basics
  import opened CampaignTypes
  import opened DirectAdapter
  import opened SagaStore
  import opened SagaService
  import opened SagaMachine
  import opened SagaSafety

  // ---------- the adapter only grows under one key ----------

  function Times(calls: seq<DirectRequest>, key: OpKey): nat {
    if calls == [] then 0
    else Times(calls[..|calls| - 1], key) + (if Last(calls).key == key then 1 else 0)
  }

  /** The change one call under `key` can make: one log entry, one remembered result, only fresh objects. */
  ghost predicate Extends(a: Adapter, b: Adapter, key: OpKey) {
    && (b.calls == a.calls
        || (|b.calls| > 0 && b.calls[..|b.calls| - 1] == a.calls && Last(b.calls).key == key && key !in a.results))
    && (forall s :: LastId(a.sequence, s) <= LastId(b.sequence, s))
    && (forall ref :: ref in b.objects ==>
          ref in a.objects || LastId(a.sequence, ref.service) < ref.number <= LastId(b.sequence, ref.service))
    && (forall k :: k in a.results ==> k in b.results && b.results[k] == a.results[k])
    && (forall k :: k in b.results ==> k in a.results || (k == key && b.calls != a.calls && !key.RunKey?))
    && (key in b.results && key !in a.results ==>
          forall c :: c in b.results[key].created ==> c.ref.number <= LastId(b.sequence, c.ref.service))
  }

  lemma ApplyExtends(types: map<Service, string>, a: Adapter, request: DirectRequest)
    ensures var effect := Apply(types, a, request);
            && (forall s :: LastId(a.sequence, s) <= LastId(effect.sequence, s))
            && (forall ref :: ref in effect.objects ==>
                  ref in a.objects || LastId(a.sequence, ref.service) < ref.number <= LastId(effect.sequence, ref.service))
            && (effect.outcome.Answered? ==>
                  forall c :: c in effect.outcome.reply.created ==> c.ref.number <= LastId(effect.sequence, c.ref.service))
            && (request.verb != Add && effect.outcome.Answered? ==> effect.outcome.reply.created == [])
  {
    hide AddAll, MoveAll, ReadAll, NewContents, NewType, NewState;
    match request.verb
    case Add =>
      AddAllIsFresh(a.objects, LastId(a.sequence, request.service), request.service,
                    NewType(types, request.service, request.payload),
                    NewState(request.service, request.payload), NewContents(request.payload));
    case Moderate => MoveAllMoves(a.objects, IdsOf(request.payload), Moderation);
    case Resume => MoveAllMoves(a.objects, IdsOf(request.payload), On);
    case _ =>
  }

  lemma InvokeExtends(faults: Faults, a: Adapter, request: DirectRequest)
    requires request.key.RunKey? ==> request.verb == Get
    ensures var r := Invoke(faults, a, request);
            && Extends(a, r.0, request.key)
            && (r.1.Answered? && request.verb != Get ==>
                  request.key in r.0.results && r.0.results[request.key] == r.1.reply)
            && (r.1.DefiniteFailure? || r.1.TransitionRejected? ==> r.0.results == a.results)
  {
    InvokeOnlyExtends(faults, a, request);
    InvokeRemembers(faults, a, request);
    hide Extends, Invoke;
  }

  lemma InvokeOnlyExtends(faults: Faults, a: Adapter, request: DirectRequest)
    requires request.key.RunKey? ==> request.verb == Get
    ensures Extends(a, Invoke(faults, a, request).0, request.key)
  {
    hide Apply;
    if request.key !in a.results {
      assert (a.calls + [request])[..|a.calls|] == a.calls;
      ApplyExtends(faults.types, a, request);
    }
  }

  lemma InvokeRemembers(faults: Faults, a: Adapter, request: DirectRequest)
    ensures var r := Invoke(faults, a, request);
            && (r.1.Answered? && request.verb != Get ==>
                  request.key in r.0.results && r.0.results[request.key] == r.1.reply)
            && (r.1.DefiniteFailure? || r.1.TransitionRejected? ==> r.0.results == a.results)
  {
    hide Apply;
  }

  // ---------- the invariant ----------

  ghost predicate KeyedAt(st: Store, k: string)
    requires k in st.sagas
  {
    && st.sagas[k].plan.request.execution == k
    && Loaded(st, st.sagas[k].plan)
    && ValidDraft(st.sagas[k].plan.request.draft)
  }

  ghost predicate Keyed(st: Store) {
    forall k :: k in st.sagas ==> KeyedAt(st, k)
  }

  /** A grant is free exactly when nobody holds it, and its holder is the one saga whose plan names it. */
  ghost predicate GrantsBound(st: Store) {
    && (forall id :: id in st.reservations ==>
          var grant := st.reservations[id];
          && (grant.status == Available <==> grant.holder.None?)
          && (grant.holder.Some? ==>
                grant.holder.value in st.sagas && st.sagas[grant.holder.value].plan.request.reservation == id))
    && (forall id :: id in st.approvals ==>
          var grant := st.approvals[id];
          && (grant.status == Available <==> grant.holder.None?)
          && (grant.holder.Some? ==>
                grant.holder.value in st.sagas && st.sagas[grant.holder.value].plan.request.approval == id))
  }

  /** The saga's reservation and approval move together, and are used before any step completes. */
  ghost predicate Lockstep(st: Store, k: string)
    requires k in st.sagas
  {
    var request := st.sagas[k].plan.request;
    && request.reservation in st.reservations
    && request.approval in st.approvals
    && st.reservations[request.reservation].holder == Some(k)
    && st.approvals[request.approval].holder == Some(k)
    && st.reservations[request.reservation].status == st.approvals[request.approval].status
    && (st.sagas[k].steps != [] ==> st.reservations[request.reservation].status == Used)
  }

  predicate AuthorityUsed(st: Store, plan: Plan) {
    && plan.request.reservation in st.reservations
    && st.reservations[plan.request.reservation].status == Used
  }

  predicate Dispatched(st: Store, key: OpKey) {
    key.StepKey? && key.execution in st.sagas && HasDispatch(st.sagas[key.execution].dispatches, key.step)
  }

  /** A write-step key reached the adapter at most once, under a dispatch row that still stands; reads are not remembered. */
  ghost predicate SentOnce(sys: System) {
    && (forall key: OpKey :: key.StepKey? ==>
          Times(sys.adapter.calls, key) <= 1 && (Times(sys.adapter.calls, key) == 1 ==> Dispatched(sys.store, key)))
    && (forall key: OpKey :: key.StepKey? && key in sys.adapter.results ==> Times(sys.adapter.calls, key) == 1)
    && (forall key: OpKey :: key in sys.adapter.results ==> !key.RunKey?)
  }

  ghost predicate Numbered(sys: System) {
    var a := sys.adapter;
    && (forall ref :: ref in a.objects ==> ref.number <= LastId(a.sequence, ref.service))
    && (forall ref :: ref in sys.store.index ==> ref.number <= LastId(a.sequence, ref.service))
    && (forall key, c :: key in a.results && c in a.results[key].created ==>
          c.ref.number <= LastId(a.sequence, c.ref.service))
    && (forall key: OpKey :: key.CompensationKey? && key in a.results ==>
          key.ref !in a.objects && key.ref.number <= LastId(a.sequence, key.ref.service))
  }

  /** No object has two rows. */
  ghost predicate DistinctRows(objects: seq<ObjectRow>) {
    forall i, j :: 0 <= i < j < |objects| ==> objects[i].created.ref != objects[j].created.ref
  }

  /** Rows name different objects, and each is in the primary key index and belongs to a step the adapter answered. */
  ghost predicate RowsKnown(sys: System, k: string)
    requires k in sys.store.sagas
  {
    && DistinctRows(sys.store.sagas[k].objects)
    && forall row :: row in sys.store.sagas[k].objects ==>
         row.created.ref in sys.store.index && StepKey(k, row.step) in sys.adapter.results
  }

  predicate Unregistered(record: SagaRecord, s: Step) {
    IsPending(record.dispatches, s) && !HasObjectsOf(record.objects, s)
  }

  /** Whether the adapter created this object for saga `k` and still has it. */
  predicate Stands(sys: System, k: string, s: Step, c: Created) {
    && StepKey(k, s) in sys.adapter.results
    && c in sys.adapter.results[StepKey(k, s)].created
    && c.ref in sys.adapter.objects
  }

  ghost predicate Accounted(sys: System, k: string)
    requires k in sys.store.sagas
  {
    forall s, c :: Stands(sys, k, s, c) ==>
      Owns(sys.store.sagas[k].objects, c.ref) || Unregistered(sys.store.sagas[k], s)
  }

  /** Every object of the saga that still stands has an uncompensated row. */
  ghost predicate AllOwned(sys: System, k: string)
    requires k in sys.store.sagas
  {
    forall s, c :: Stands(sys, k, s, c) ==> Owns(sys.store.sagas[k].objects, c.ref)
  }

  /** The adapter holds no object of the saga. */
  ghost predicate NoneLeft(sys: System, k: string) {
    forall s, c :: !Stands(sys, k, s, c)
  }

  ghost predicate Truthful(sys: System, k: string)
    requires k in sys.store.sagas
  {
    var status := sys.store.sagas[k].status;
    && (status == SagaStatus.Failed || status == PartiallyApplied ==> NoneLeft(sys, k))
    && (status == CompensationRequired ==> AllOwned(sys, k))
  }

  ghost predicate ReplyFits(reply: Reply, s: Step) {
    && (IsAdd(s) ==>
          && |reply.created| == |ExpectedTypes(s)|
          && forall i :: 0 <= i < |reply.created| ==> reply.created[i].ref.service == ExpectedTypes(s)[i].0)
    && (s == ModerationSubmit ==> reply.created == [] && reply.readback != [] && AllIn(reply.readback, Moderation))
    && (s == CampaignLaunch ==> reply.created == [] && |reply.readback| == 1 && reply.readback[0].item.state == On)
  }

  ghost predicate RepliesFit(sys: System, k: string) {
    forall s :: StepKey(k, s) in sys.adapter.results ==> ReplyFits(sys.adapter.results[StepKey(k, s)], s)
  }

  ghost predicate SagaOk(sys: System, k: string)
    requires k in sys.store.sagas
  {
    && Shaped(sys.store.sagas[k])
    && Lockstep(sys.store, k)
    && RowsKnown(sys, k)
    && Accounted(sys, k)
    && Truthful(sys, k)
    && RepliesFit(sys, k)
  }

  ghost predicate SystemOk(sys: System) {
    && Keyed(sys.store)
    && GrantsBound(sys.store)
    && SentOnce(sys)
    && Numbered(sys)
    && forall k :: k in sys.store.sagas ==> SagaOk(sys, k)
  }

  /** The saga of `plan` waits for the outcome of `step`. */
  ghost predicate Awaits(sys: System, plan: Plan, step: Step) {
    && Running(sys.store, plan)
    && !NothingPending(Record(sys, plan))
    && Record(sys, plan).dispatches != []
    && Last(Record(sys, plan).dispatches).step == step
  }

  ghost predicate Answers(sys: System, plan: Plan, step: Step, reply: Reply) {
    && StepKey(plan.request.execution, step) in sys.adapter.results
    && sys.adapter.results[StepKey(plan.request.execution, step)] == reply
  }

  /** Every row not yet compensated is still on the list, unless some compensation failed. */
  ghost predicate Listed(sys: System, plan: Plan, todo: set<ObjectRef>, failures: nat)
    requires Loaded(sys.store, plan)
  {
    failures == 0 ==>
      forall row :: row in Record(sys, plan).objects && !row.compensated ==> row.created.ref in todo
  }

  predicate RequestFits(plan: Plan, step: Step, request: DirectRequest) {
    && IsWrite(step)
    && request.key == StepKey(plan.request.execution, step)
    && request.run == plan.request.run
    && (IsAdd(step) ==>
          && request.verb == Add
          && |NewContents(request.payload)| == |ExpectedTypes(step)|
          && forall i :: 0 <= i < |ExpectedTypes(step)| ==> ExpectedTypes(step)[i].0 == request.service)
    && (step == ModerationSubmit ==> request.verb == Moderate && IdsOf(request.payload) != [])
    && (step == CampaignLaunch ==> request.verb == Resume && |IdsOf(request.payload)| == 1)
  }

  ghost predicate PositionOk(c: Config) {
    match c.at
    case Idle => true
    case Working(plan) => Running(c.sys.store, plan) && NothingPending(Record(c.sys, plan))
    case Claimed(plan, step, request) =>
      && Awaits(c.sys, plan, step)
      && Last(Record(c.sys, plan).dispatches).request == request
      && RequestFits(plan, step, request)
      && Times(c.sys.adapter.calls, request.key) == 0
    case Replied(plan, step, reply, origin) =>
      Awaits(c.sys, plan, step) && Answers(c.sys, plan, step, reply)
    case Authorized(plan, reply, origin) =>
      && Awaits(c.sys, plan, CampaignAdd) && Answers(c.sys, plan, CampaignAdd, reply)
      && AuthorityUsed(c.sys.store, plan)
    case Registered(plan, step, created, origin) =>
      && Awaits(c.sys, plan, step)
      && HasObjectsOf(Record(c.sys, plan).objects, step)
      && AuthorityUsed(c.sys.store, plan)
    case Reconciling(plan, origin) => Running(c.sys.store, plan)
    case Abandoned(plan) =>
      Loaded(c.sys.store, plan) && Record(c.sys, plan).status == UnknownResult
    case Compensating(plan, todo, failures, nothing, detail) =>
      && Running(c.sys.store, plan)
      && AllOwned(c.sys, plan.request.execution)
      && Listed(c.sys, plan, (set ref | ref in todo), failures)
      && (nothing ==> todo == [] && failures == 0)
    case Deleted(plan, ref, todo, failures, detail) =>
      && Running(c.sys.store, plan)
      && AllOwned(c.sys, plan.request.execution)
      && ref !in c.sys.adapter.objects
      && Listed(c.sys, plan, (set r | r in todo) + {ref}, failures)
  }

  ghost predicate Inv(c: Config) {
    SystemOk(c.sys) && PositionOk(c)
  }

  /** Nothing sent yet, nothing stored, and identifiers handed out in order. */
  ghost predicate Initial(c: Config) {
    && c.at.Idle?
    && c.sys.store == EMPTY_STORE
    && c.sys.adapter.calls == [] && c.sys.adapter.results == map[]
    && forall ref :: ref in c.sys.adapter.objects ==> ref.number <= LastId(c.sys.adapter.sequence, ref.service)
  }
}
