/** The guards of the saga's writes, one by one: gates, ownership, claims, object states, created types and confirmed outcomes. */
module SagaGates {
  import opened Basics
  import opened CampaignTypes
  import opened DirectAdapter
  import opened SagaStore
  import opened SagaService
  import opened SagaSafety
  import opened SagaInvariant
  import opened SagaEvents
  import opened SagaWrites
  import opened SagaRefinement
  import opened SagaTracks
  import opened SagaCalm
  import opened SagaWedges

  // ---------- ownership ----------

  /** A change or a delete that names an object the run does not own is refused before anything happens, and so is a read. */
  lemma ForeignIsRefused(env: Env, sys: System, request: DirectRequest, service: Service, ids: seq<ObjectRef>)
    ensures request.verb != Add && (exists id <- IdsOf(request.payload) :: !Owned(sys.store, request.run, id)) ==>
              Send(env, sys, request).0 == sys && Send(env, sys, request).1.TransitionRejected?
    ensures (exists id <- ids :: !Owned(sys.store, request.run, id)) ==>
              Read(env, sys, request.run, service, ids).0 == sys && Read(env, sys, request.run, service, ids).1.TransitionRejected?
  {
    hide Owned, Claim, CancelClaim, Invoke;
  }

  /** An object is owned by a run exactly when the run's saga has a row of it that is not compensated. */
  lemma OwnedWhen(st: Store, run: string, ref: ObjectRef)
    ensures Owned(st, run, ref)
       <==> run in st.runs && st.runs[run] in st.sagas
            && exists row :: row in st.sagas[st.runs[run]].objects && row.created.ref == ref && !row.compensated
  {
  }

  // ---------- claims ----------

  /**
   * A saga step is claimed if and only if it is the next step, it writes, the request is the one its stored plan asks for, it was
   * not claimed before, and the gate is open; the claim is then written, and otherwise nothing is.
   */
  lemma StepClaimedWhen(record: SagaRecord, request: DirectRequest, gateOpen: bool)
    requires !request.key.CompensationKey?
    ensures var r, n := ClaimRecord(record, request, gateOpen), |record.steps|;
            && (r.1 == Ok(true) <==>
                  && n < |SAGA_STEPS| && SAGA_STEPS[n] != ModerationReadback && SAGA_STEPS[n] != FullReadback
                  && ExpectedRequest(record, SAGA_STEPS[n]) == Ok(request)
                  && (forall row <- record.dispatches :: row.step != SAGA_STEPS[n]) && gateOpen)
            && r.0 == if r.1 == Ok(true)
                      then record.(dispatches := record.dispatches + [DispatchRow(n, SAGA_STEPS[n], request, false)]) else record
  {
    hide ExpectedRequest;
  }

  /** A compensation is claimed if and only if it deletes exactly an object this saga owns, and the gate is open. */
  lemma DeleteClaimedWhen(record: SagaRecord, request: DirectRequest, gateOpen: bool)
    requires request.key.CompensationKey?
    ensures var r, ref := ClaimRecord(record, request, gateOpen), request.key.ref;
            && r.0 == record
            && (r.1 == Ok(true) <==>
                  && request.verb == Delete && request.payload == IdPayload(ref) && request.service == ref.service
                  && request.key.execution == record.plan.request.execution
                  && (exists row :: row in record.objects && row.created.ref == ref && !row.compensated) && gateOpen)
  {
  }

  /** Only a saga in flight claims; a request of any other run is let through unclaimed, and nothing is written. */
  lemma ClaimsInFlightOnly(st: Store, request: DirectRequest, gateOpen: bool)
    ensures var r := Claim(st, request, gateOpen);
            if request.run in st.runs && st.runs[request.run] in st.sagas && st.sagas[st.runs[request.run]].status == InFlight then
              var claimed := ClaimRecord(st.sagas[st.runs[request.run]], request, gateOpen);
              r.0 == st.(sagas := st.sagas[st.runs[request.run] := claimed.0]) && r.1 == claimed.1
            else r == (st, Ok(false))
  {
    hide ClaimRecord;
  }

  /** A dispatch row is taken back if and only if it is of this very request, open, and nothing of its step is registered. */
  lemma {:induction false} ClaimCancelledWhen(record: SagaRecord, request: DirectRequest, dispatches: seq<DispatchRow>)
    ensures forall row :: row in WithoutClaim(record, request, dispatches)
                     <==> row in dispatches
                          && !(row.request == request && !row.completed && forall item <- record.objects :: item.step != row.step)
  {
    if dispatches != [] {
      assert dispatches == [dispatches[0]] + dispatches[1..];
      ClaimCancelledWhen(record, request, dispatches[1..]);
    }
  }

  /** A step is begun if and only if it is the next one and no dispatch is open. */
  lemma StepBegunWhen(record: SagaRecord, step: Step)
    ensures BeginStep(record, step).Ok? <==> |record.steps| == Ordinal(step) && forall row <- record.dispatches :: row.completed
  {
    NonePendingWhen(record.dispatches);
  }

  lemma {:induction false} NonePendingWhen(dispatches: seq<DispatchRow>)
    ensures FirstPending(dispatches).None? <==> forall row <- dispatches :: row.completed
  {
    if dispatches != [] {
      assert dispatches == [dispatches[0]] + dispatches[1..];
      NonePendingWhen(dispatches[1..]);
    }
  }

  /** The next step is closed, a write only when it was dispatched; closing a completed step again changes nothing. */
  lemma StepClosedWhen(record: SagaRecord, step: Step, response: Response)
    ensures var r := CompleteRecord(record, step, response);
            && (|record.steps| != Ordinal(step) ==>
                  (r.Ok? <==> exists row <- record.steps :: row.step == step) && (r.Ok? ==> r.value == record))
            && (|record.steps| == Ordinal(step) ==>
                  && (r.Ok? <==>
                        step == ModerationReadback || step == FullReadback
                        || exists row <- record.dispatches :: row.step == step && !row.completed)
                  && (r.Ok? ==>
                        && r.value == record.(steps := record.steps + [StepRow(step, response)], dispatches := r.value.dispatches)
                        && |r.value.dispatches| == |record.dispatches|
                        && forall i :: 0 <= i < |record.dispatches| ==>
                             r.value.dispatches[i]
                             == if IsWrite(step) && record.dispatches[i].step == step then record.dispatches[i].(completed := true)
                                else record.dispatches[i]))
  {
  }

  // ---------- gates ----------

  lemma {:induction false} ClaimAtRest(sys: System, plan: Plan, n: nat, request: DirectRequest)
    requires n < |SAGA_STEPS| && AtRest(sys, plan) && StepsDone(sys, plan) == n && IsWrite(StepAt(n))
    requires HandlerRequest(plan, Live(Record(sys, plan).objects), StepAt(n)) == Ok(request)
    ensures request.run == plan.request.run && request.key == StepKey(plan.request.execution, StepAt(n))
    ensures request.key !in sys.adapter.results
    ensures var record := Record(sys, plan);
            && Claim(sys.store, request, false).1.Rejected?
            && CancelClaim(Claim(sys.store, request, false).0, request) == sys.store
            && Claim(sys.store, request, true).1 == Ok(true)
            && CancelClaim(Claim(sys.store, request, true).0, request) == sys.store
  {
    hide SystemOk, Live, ExpectedRequest, HandlerRequest, Owned, Shaped, Lockstep, Accounted, Truthful, RepliesFit,
         FirstPending, HasDispatch, CancelRecord;
    var record := Record(sys, plan);
    StepsDoneIs(sys, plan);
    OrdinalOf(n);
    SagaParts(sys, plan);
    PendingFirst(record);
    NextIsDispatchedIfPending(record, StepAt(n));
    HandlerMatchesPlan(record, StepAt(n));
    AddRequestShape(plan, Live(record.objects), StepAt(n));
    DraftOf(sys, plan);
    HandlerRequestFits(plan, Live(record.objects), StepAt(n));
    RequestKey(plan, StepAt(n), request);
    RequestRun(plan, StepAt(n), request);
    NotYetAnswered(sys, plan, StepAt(n));
    var claimed := record.(dispatches := record.dispatches + [DispatchRow(n, StepAt(n), request, false)]);
    assert ClaimRecord(record, request, true) == (claimed, Ok(true));
    CancelShape(record, request);
    UnansweredHasNoRows(sys, plan, StepAt(n));
    WithoutNewest(record, claimed, request);
    assert Put(sys.store, plan.request.execution, record) == sys.store;
    assert Put(Put(sys.store, plan.request.execution, claimed), plan.request.execution, record) == sys.store;
    hide ClaimRecord;
  }

  lemma {:induction false} UnansweredHasNoRows(sys: System, plan: Plan, step: Step)
    requires Loaded(sys.store, plan) && RowsKnown(sys, plan.request.execution)
    requires StepKey(plan.request.execution, step) !in sys.adapter.results
    ensures !HasObjectsOf(Record(sys, plan).objects, step)
  {
  }

  /** A write sent at rest: behind a shut gate nothing changes at all, and otherwise the adapter is called with it. */
  lemma {:induction false} SendAtRest(env: Env, sys: System, plan: Plan, n: nat, request: DirectRequest)
    requires n < |SAGA_STEPS| && AtRest(sys, plan) && StepsDone(sys, plan) == n && IsWrite(StepAt(n))
    requires HandlerRequest(plan, Live(Record(sys, plan).objects), StepAt(n)) == Ok(request)
    requires request.verb != Add ==> forall id <- IdsOf(request.payload) :: Owned(sys.store, request.run, id)
    ensures var r := Send(env, sys, request);
            && (request.key in env.closed || request.key in env.blocked ==> r.0 == sys && r.1.TransitionRejected?)
            && (request.key !in env.closed && request.key !in env.blocked ==>
                  r.0.adapter.calls == sys.adapter.calls + [request] && r.0.adapter == Invoke(env.faults, sys.adapter, request).0)
  {
    hide AtRest, Claim, CancelClaim, HandlerRequest, Live, Owned, StepsDone;
    ClaimAtRest(sys, plan, n, request);
    CallsAdd(env.faults, sys.adapter, request);
    assert sys.(store := sys.store) == sys;
  }

  lemma CallsAdd(faults: Faults, a: Adapter, request: DirectRequest)
    requires request.key !in a.results
    ensures Invoke(faults, a, request).0.calls == a.calls + [request]
  {
    hide Apply;
  }

  /**
   * The next write of a saga at rest: behind a shut gate, or when it is refused, nothing changes; otherwise the adapter is called
   * exactly once, with the request the handler builds.
   */
  lemma {:induction false} StepCallsWhen(env: Env, sys: System, plan: Plan, step: Step)
    requires AtRest(sys, plan) && Ordinal(step) == |Record(sys, plan).steps| && IsWrite(step)
    ensures var key := StepKey(plan.request.execution, step);
            var request := HandlerRequest(plan, Live(Record(sys, plan).objects), step);
            var r := RunStep(env, sys, plan, step);
            if key in env.closed || key in env.blocked || WriteRefused(sys, plan, step) then r.0 == sys && r.1.Raised?
            else r.0.adapter.calls == sys.adapter.calls + [request.value]
  {
    hide SystemOk, NothingPending, Live, HandlerRequest, BeginStep, Send, StateAllows, Owned, CompleteAdd, CloseStep, ConsumeAuthority;
    var n := |Record(sys, plan).steps|;
    OrdinalOf(n);
    StepsDoneIs(sys, plan);
    RestBegins(sys, plan, step);
    var live := Live(Record(sys, plan).objects);
    var request := HandlerRequest(plan, live, step);
    if request.Ok? {
      DraftOf(sys, plan);
      HandlerRequestFits(plan, live, step);
      RequestKey(plan, step, request.value);
      AddRequestShape(plan, live, step);
      RequestVerb(plan, step, request.value);
      if IsAdd(step) || MoveGuard(sys, plan, step, request.value) {
        if !IsAdd(step) {
          GuardMeans(sys, plan, step, request.value);
          RequestRun(plan, step, request.value);
        }
        SendAtRest(env, sys, plan, n, request.value);
        SendKeepsRunningHere(env, sys, plan, step, request.value);
      }
      StepIs(env, sys, plan, step, request.value);
    } else {
      NotBuilt(env, sys, plan, step);
    }
  }

  lemma RequestVerb(plan: Plan, step: Step, request: DirectRequest)
    requires RequestFits(plan, step, request)
    ensures IsAdd(step) <==> request.verb == Add
  {
  }

  lemma SendKeepsRunningHere(env: Env, sys: System, plan: Plan, step: Step, request: DirectRequest)
    requires Running(sys.store, plan) && RequestFits(plan, step, request)
    ensures Running(Send(env, sys, request).0.store, plan)
  {
    RequestRun(plan, step, request);
    SendKeepsRunning(env, sys, plan, request);
    hide Send, RequestFits;
  }

  /** What the handler of a write step does with the request it built, as far as the adapter can tell. */
  lemma StepIs(env: Env, sys: System, plan: Plan, step: Step, request: DirectRequest)
    requires Running(sys.store, plan) && IsWrite(step) && BeginStep(Record(sys, plan), step).Ok? && RequestFits(plan, step, request)
    requires HandlerRequest(plan, Live(Record(sys, plan).objects), step) == Ok(request)
    ensures var r := RunStep(env, sys, plan, step);
            var sent := Send(env, sys, request);
            if step == CampaignAdd && request.key in env.closed then r.0 == sys && r.1.Raised?
            else if !IsAdd(step) && !MoveGuard(sys, plan, step, request) then r.0 == sys && r.1.Raised?
            else r.0.adapter == sent.0.adapter && (sent.1.TransitionRejected? ==> r.0 == sent.0 && r.1.Raised?)
  {
    hide RunStep, Send, HandlerRequest, Live, BeginStep, MoveGuard, RequestFits;
    RequestKey(plan, step, request);
    if IsAdd(step) {
      AddIs(env, sys, plan, step, request);
    } else {
      MoveIs(env, sys, plan, step, request);
    }
  }

  lemma AddIs(env: Env, sys: System, plan: Plan, step: Step, request: DirectRequest)
    requires Running(sys.store, plan) && IsAdd(step) && BeginStep(Record(sys, plan), step).Ok? && RequestFits(plan, step, request)
    requires HandlerRequest(plan, Live(Record(sys, plan).objects), step) == Ok(request)
    ensures var r := RunStep(env, sys, plan, step);
            var sent := Send(env, sys, request);
            if step == CampaignAdd && StepKey(plan.request.execution, step) in env.closed then r.0 == sys && r.1.Raised?
            else r.0.adapter == sent.0.adapter && (sent.1.TransitionRejected? ==> r.0 == sent.0 && r.1.Raised?)
  {
    hide Live, HandlerRequest, BeginStep, Send, ConsumeAuthority, CompleteAdd;
    SendKeepsRunningHere(env, sys, plan, step, request);
    hide RequestFits;
    var sent := Send(env, sys, request);
    if sent.1.Answered? {
      CompleteAddKeepsAdapter(sent.0, plan, step, sent.1.reply.created);
      ConsumeKeepsRunning(sent.0.store, plan);
      CompleteAddKeepsAdapter(sent.0.(store := ConsumeAuthority(sent.0.store, plan).0), plan, step, sent.1.reply.created);
    }
  }

  lemma MoveIs(env: Env, sys: System, plan: Plan, step: Step, request: DirectRequest)
    requires Running(sys.store, plan) && IsWrite(step) && !IsAdd(step) && BeginStep(Record(sys, plan), step).Ok?
    requires HandlerRequest(plan, Live(Record(sys, plan).objects), step) == Ok(request) && RequestFits(plan, step, request)
    ensures var r := RunStep(env, sys, plan, step);
            var sent := Send(env, sys, request);
            if !MoveGuard(sys, plan, step, request) then r.0 == sys && r.1.Raised?
            else r.0.adapter == sent.0.adapter && (sent.1.TransitionRejected? ==> r.0 == sent.0 && r.1.Raised?)
  {
    hide Live, OfService, BeginStep, Send, StateAllows, CloseStep, AllIn, StatesOf;
    SendKeepsRunningHere(env, sys, plan, step, request);
    hide RequestFits;
    var sent := Send(env, sys, request);
    if sent.1.Answered? {
      CloseKeepsAdapter(sent.0, plan, step, if step == ModerationSubmit then States(StatesOf(sent.1.reply.readback)) else States([On]));
    }
    if step == CampaignLaunch {
      assert IdsOf(request.payload) == [request.payload.id] && request.payload.id in [request.payload.id];
    }
  }

  lemma NotBuilt(env: Env, sys: System, plan: Plan, step: Step)
    requires Running(sys.store, plan) && IsWrite(step) && HandlerRequest(plan, Live(Record(sys, plan).objects), step).Rejected?
    ensures RunStep(env, sys, plan, step).0 == sys && RunStep(env, sys, plan, step).1.Raised?
  {
    hide Live, HandlerRequest, BeginStep, Send, StateAllows;
  }

  // ---------- object states ----------

  /** Compensation may delete an owned object in these states only; an ad group in any. */
  lemma DeletableWhen(sys: System, plan: Plan, ref: ObjectRef)
    ensures DeleteAllowed(sys, plan, ref)
       <==> && Owned(sys.store, plan.request.run, ref)
            && (ref.service != AdGroups ==>
                  && ref in sys.adapter.objects
                  && match ref.service
                     case Campaigns => sys.adapter.objects[ref].state == Suspended || sys.adapter.objects[ref].state == Archived
                     case Ads => sys.adapter.objects[ref].state != On
                     case Keywords => sys.adapter.objects[ref].state == Suspended
                     case AdGroups => true)
  {
    hide Owned;
  }

  // ---------- registering and closing ----------

  predicate IsKind(created: Created, service: Service, actualType: string) {
    created.ref.service == service && created.actualType == actualType
  }

  /** One campaign, one ad group, two text ads, or one keyword. */
  predicate PlannedTypes(step: Step, created: seq<Created>) {
    match step
    case CampaignAdd => |created| == 1 && IsKind(created[0], Campaigns, "UNIFIED_CAMPAIGN")
    case AdGroupAdd => |created| == 1 && IsKind(created[0], AdGroups, "UNIFIED_AD_GROUP")
    case AdsAdd => |created| == 2 && IsKind(created[0], Ads, "TEXT_AD") && IsKind(created[1], Ads, "TEXT_AD")
    case KeywordAdd => |created| == 1 && IsKind(created[0], Keywords, "KEYWORD")
    case _ => |created| == 0
  }

  lemma TypesPlanned(step: Step, created: seq<Created>)
    ensures TypesMatch(created, step) <==> PlannedTypes(step, created)
  {
  }

  /** Objects are registered when there are some, all different, none of them registered before. */
  predicate Registrable(st: Store, created: seq<Created>) {
    && created != []
    && (forall i, j | 0 <= i < j < |created| :: created[i].ref != created[j].ref)
    && (forall item <- created :: item.ref !in st.index)
  }

  lemma RegistersWhen(st: Store, execution: string, step: Step, created: seq<Created>)
    requires execution in st.sagas
    ensures var r := Register(st, execution, step, created);
            && (r.1.Ok? <==> IsPending(st.sagas[execution].dispatches, step) && Registrable(st, created))
            && (r.1.Rejected? ==> r.0 == st)
            && (r.1.Ok? ==>
                  && r.0.sagas == st.sagas[execution := r.0.sagas[execution]]
                  && r.0.sagas[execution] == st.sagas[execution].(objects := st.sagas[execution].objects + RowsOf(created, step))
                  && r.0.index == st.index + (set item | item in created :: item.ref))
  {
    hide IsPending, RowsOf;
    if created != [] && DistinctRefs(created) {
      var common := RefsOf(created) * st.index;
      if item :| item in created && item.ref in st.index {
        assert item.ref in common;
      } else {
        assert common == {};
      }
    }
  }

  /**
   * An answered add step completes if and only if its objects can be registered and are of the planned types; objects of other
   * types are registered all the same, so that they can be compensated.
   */
  lemma AddCompletesWhen(sys: System, plan: Plan, step: Step, created: seq<Created>)
    requires Running(sys.store, plan) && IsAdd(step) && Ordinal(step) == |Record(sys, plan).steps|
    requires IsPending(Record(sys, plan).dispatches, step)
    ensures var r := CompleteAdd(sys, plan, step, created);
            && (r.1.Done? <==> Registrable(sys.store, created) && PlannedTypes(step, created))
            && (Registrable(sys.store, created) ==>
                  Record(r.0, plan).objects == Record(sys, plan).objects + RowsOf(created, step)
                  && (!PlannedTypes(step, created) ==> r.1 == Failure("CREATED_OBJECT_TYPE_MISMATCH")))
            && (!Registrable(sys.store, created) ==> r.0 == sys && r.1.Raised?)
  {
    hide IsPending, RowsOf, TypesMatch, PlannedTypes, Registrable, Register, CloseStep;
    RegistersWhen(sys.store, plan.request.execution, step, created);
    TypesPlanned(step, created);
    var registered := Register(sys.store, plan.request.execution, step, created);
    RegisterKeepsRunning(sys.store, plan, step, created);
    if registered.1.Ok? {
      CloseMoves(sys.(store := registered.0), plan, step, Ids(CreatedRefs(created)));
      CloseRows(sys.(store := registered.0), plan, step, Ids(CreatedRefs(created)));
    }
  }

  lemma CloseRows(sys: System, plan: Plan, step: Step, response: Response)
    requires Running(sys.store, plan)
    ensures Record(CloseStep(sys, plan, step, response).0, plan).objects == Record(sys, plan).objects
  {
    hide CloseDispatch, IsPending, HasStep;
  }

  // ---------- settling a pending step ----------

  /** Both grants are reserved for this saga. */
  predicate GrantsReserved(st: Store, plan: Plan) {
    var request := plan.request;
    && request.reservation in st.reservations && request.approval in st.approvals
    && st.reservations[request.reservation].status == Reserved && st.approvals[request.approval].status == Reserved
    && st.reservations[request.reservation].holder == Some(request.execution)
    && st.approvals[request.approval].holder == Some(request.execution)
  }

  /** Both grants are used together, when both are reserved for this saga, or neither is. */
  lemma ConsumesGrantsWhen(st: Store, plan: Plan)
    ensures var r, request := ConsumeAuthority(st, plan), plan.request;
            && (r.1.Ok? <==> GrantsReserved(st, plan))
            && (r.1.Rejected? ==> r.0 == st)
            && (r.1.Ok? ==>
                  r.0 == st.(reservations := st.reservations[request.reservation := st.reservations[request.reservation].(status := Used)],
                             approvals := st.approvals[request.approval := st.approvals[request.approval].(status := Used)]))
  {
  }

  /** What a remembered reply must show for its step to be completed by reconciliation. */
  predicate Confirms(sys: System, plan: Plan, step: Step, reply: Reply) {
    match step
    case CampaignAdd => GrantsReserved(sys.store, plan) && Registrable(sys.store, reply.created) && PlannedTypes(step, reply.created)
    case ModerationSubmit => reply.readback != [] && forall seen <- reply.readback :: seen.item.state == Moderation
    case CampaignLaunch => |reply.readback| == 1 && reply.readback[0].item.state == On
    case _ => Registrable(sys.store, reply.created) && PlannedTypes(step, reply.created)
  }

  /**
   * Reconciling a pending step: without a remembered reply the saga is closed UNKNOWN_RESULT; a reply of another kind changes
   * nothing; a reply that confirms the step completes it; a move that is not confirmed closes the saga FAILED, and a first write
   * whose grants are not reserved closes it UNKNOWN_RESULT.
   */
  lemma ReconcilesWhen(sys: System, plan: Plan)
    requires Running(sys.store, plan) && Shaped(Record(sys, plan)) && !NothingPending(Record(sys, plan))
    ensures Record(sys, plan).dispatches != []
    ensures var r := Reconcile(sys, plan);
            var row := Last(Record(sys, plan).dispatches);
            var key, step := row.request.key, row.step;
            if key !in sys.adapter.results then
              r == (Settle(sys, plan, UnknownResult, "READBACK_COULD_NOT_RESOLVE_DISPATCH"), Unresolved)
            else if sys.adapter.results[key].service != row.request.service || sys.adapter.results[key].verb != row.request.verb then
              r.0 == sys && r.1.ReconcileRaised?
            else
              var reply := sys.adapter.results[key];
              && (r.1.Resolved? <==> Confirms(sys, plan, step, reply))
              && (r.1.Resolved? ==> |Record(r.0, plan).steps| == |Record(sys, plan).steps| + 1)
              && (step in {ModerationSubmit, CampaignLaunch} && !Confirms(sys, plan, step, reply) ==>
                    r == (Settle(sys, plan, SagaStatus.Failed, "RECONCILIATION_CONFIRMED_ORIGINAL_STATE"), Unresolved))
              && (step == CampaignAdd && !GrantsReserved(sys.store, plan) ==>
                    r == (Settle(sys, plan, UnknownResult, "FIRST_WRITE_AUTHORITY_RECONCILIATION_FAILED"), Unresolved))
  {
    hide FirstPending, ResolveWith, Settle, Confirms, GrantsReserved, Shaped;
    PendingFirst(Record(sys, plan));
    LastIsNext(Record(sys, plan));
    var row := Last(Record(sys, plan).dispatches);
    if row.request.key in sys.adapter.results {
      OrdinalOf(|Record(sys, plan).steps|);
      ConfirmedWhen(sys, plan, row.step, sys.adapter.results[row.request.key]);
    }
  }

  lemma ConfirmedWhen(sys: System, plan: Plan, step: Step, reply: Reply)
    requires Running(sys.store, plan) && IsWrite(step) && Ordinal(step) == |Record(sys, plan).steps|
    requires IsPending(Record(sys, plan).dispatches, step)
    ensures var r := ResolveWith(sys, plan, step, reply);
            && (r.1.Resolved? <==> Confirms(sys, plan, step, reply))
            && (r.1.Resolved? ==> |Record(r.0, plan).steps| == |Record(sys, plan).steps| + 1)
            && (step in {ModerationSubmit, CampaignLaunch} && !Confirms(sys, plan, step, reply) ==>
                  r == (Settle(sys, plan, SagaStatus.Failed, "RECONCILIATION_CONFIRMED_ORIGINAL_STATE"), Unresolved))
            && (step == CampaignAdd && !GrantsReserved(sys.store, plan) ==>
                  r == (Settle(sys, plan, UnknownResult, "FIRST_WRITE_AUTHORITY_RECONCILIATION_FAILED"), Unresolved))
  {
    hide Settle, CompleteAdd, CloseStep, Registrable, PlannedTypes, GrantsReserved, ConsumeAuthority, StatesOf, IsPending;
    ConsumesGrantsWhen(sys.store, plan);
    if step == CampaignAdd && GrantsReserved(sys.store, plan) {
      var used := sys.(store := ConsumeAuthority(sys.store, plan).0);
      UsedIsRunning(sys.store, plan);
      AddCompletesWhen(used, plan, step, reply.created);
      AddSteps(used, plan, step, reply.created);
      SameRegistrable(sys.store, used.store, reply.created);
    } else if IsAdd(step) {
      AddCompletesWhen(sys, plan, step, reply.created);
      AddSteps(sys, plan, step, reply.created);
    } else {
      var response := if step == ModerationSubmit then States(StatesOf(reply.readback)) else States([On]);
      CloseMoves(sys, plan, step, response);
      CloseCounts(sys, plan, step, response);
    }
  }

  lemma SameRegistrable(st: Store, later: Store, created: seq<Created>)
    requires later.index == st.index
    ensures Registrable(later, created) == Registrable(st, created)
  {
  }

  lemma UsedIsRunning(st: Store, plan: Plan)
    requires Running(st, plan)
    ensures var used := ConsumeAuthority(st, plan).0; Running(used, plan) && used.sagas == st.sagas && used.index == st.index
  {
  }

  lemma AddSteps(sys: System, plan: Plan, step: Step, created: seq<Created>)
    requires Running(sys.store, plan) && Ordinal(step) == |Record(sys, plan).steps|
    ensures CompleteAdd(sys, plan, step, created).1.Done? ==>
              |Record(CompleteAdd(sys, plan, step, created).0, plan).steps| == |Record(sys, plan).steps| + 1
  {
    hide TypesMatch, IsPending, HasStep, CloseDispatch, DistinctRefs, RefsOf, RowsOf;
  }

  lemma CloseCounts(sys: System, plan: Plan, step: Step, response: Response)
    requires Running(sys.store, plan) && Ordinal(step) == |Record(sys, plan).steps|
    ensures CloseStep(sys, plan, step, response).1.Done? ==>
              |Record(CloseStep(sys, plan, step, response).0, plan).steps| == |Record(sys, plan).steps| + 1
  {
    hide CloseDispatch, IsPending, HasStep;
  }
}
