/** Sagas that do not carry on by themselves: when exactly no later call can move one, and which stops lead there. */
module SagaWedges {
  import opened Basics
  import opened CampaignTypes
  import opened DirectAdapter
  import opened SagaStore
  import opened SagaService
  import opened SagaMachine
  import opened SagaSafety
  import opened SagaInvariant
  import opened SagaEvents
  import opened SagaWrites
  import opened SagaRuns
  import opened SagaRefinement
  import opened SagaTracks
  import opened SagaCalm
  import opened SagaCompensation

  /** Every later call raises and leaves store and adapter as they are, whatever it meets. */
  ghost predicate Stuck(sys: System, plan: Plan) {
    && Running(sys.store, plan) && KeyedFor(sys.store, plan)
    && forall env, now, approver, maxSteps ::
         var r := Execute(env, sys, plan, now, approver, maxSteps); r.0 == sys && r.1.ExecuteRaised?
  }

  /** Every later fault-free call raises and leaves everything but the adapter's call log as it is. */
  ghost predicate CalmStuck(sys: System, plan: Plan) {
    && Running(sys.store, plan) && KeyedFor(sys.store, plan)
    && forall now, approver, maxSteps ::
         var r := Execute(CALM, sys, plan, now, approver, maxSteps); Same(r.0, sys) && r.1.ExecuteRaised?
  }

  lemma StuckIsCalmStuck(sys: System, plan: Plan)
    requires Stuck(sys, plan)
    ensures CalmStuck(sys, plan)
  {
    forall now, approver, maxSteps
      ensures var r := Execute(CALM, sys, plan, now, approver, maxSteps); Same(r.0, sys) && r.1.ExecuteRaised?
    {
      var r := Execute(CALM, sys, plan, now, approver, maxSteps);
      assert r.0 == sys && r.1.ExecuteRaised?;
    }
    hide Execute;
  }

  /** One call that ends otherwise shows that a saga is not stuck. */
  lemma {:induction false} NotCalmStuck(sys: System, plan: Plan, now: int, approver: Principal, maxSteps: Option<int>)
    requires Running(sys.store, plan) && KeyedFor(sys.store, plan)
    requires var r := Execute(CALM, sys, plan, now, approver, maxSteps); r.0.store != sys.store || !r.1.ExecuteRaised?
    ensures !CalmStuck(sys, plan) && !Stuck(sys, plan)
  {
    hide Execute, CalmStuck, Stuck;
    if CalmStuck(sys, plan) {
      CalmCall(sys, plan, now, approver, maxSteps);
    }
    if Stuck(sys, plan) {
      StuckIsCalmStuck(sys, plan);
    }
  }

  lemma {:induction false} CalmCall(sys: System, plan: Plan, now: int, approver: Principal, maxSteps: Option<int>)
    requires CalmStuck(sys, plan)
    ensures KeyedFor(sys.store, plan)
    ensures var r := Execute(CALM, sys, plan, now, approver, maxSteps); Same(r.0, sys) && r.1.ExecuteRaised?
  {
    hide Execute;
  }

  lemma {:induction false} AnyCall(sys: System, plan: Plan, env: Env, now: int, approver: Principal, maxSteps: Option<int>)
    requires Stuck(sys, plan)
    ensures KeyedFor(sys.store, plan)
    ensures var r := Execute(env, sys, plan, now, approver, maxSteps); r.0 == sys && r.1.ExecuteRaised?
  {
    hide Execute;
  }

  const ANYBODY := Principal("", "")

  // ---------- with a pending dispatch ----------

  /** Reconciliation can neither complete the pending step nor close the saga: the remembered reply cannot be registered. */
  predicate PendingRefused(sys: System, plan: Plan)
    requires Loaded(sys.store, plan)
  {
    var pending := FirstPending(Record(sys, plan).dispatches);
    && pending.Some? && pending.value.request.key in sys.adapter.results
    && var reply, request := sys.adapter.results[pending.value.request.key], pending.value.request;
    || reply.service != request.service || reply.verb != request.verb
    || (IsAdd(pending.value.step) && pending.value.step != CampaignAdd
        && Register(sys.store, plan.request.execution, pending.value.step, reply.created).1.Rejected?)
  }

  lemma RefusedRaises(sys: System, plan: Plan)
    requires Running(sys.store, plan) && PendingRefused(sys, plan)
    ensures Reconcile(sys, plan).0 == sys && Reconcile(sys, plan).1.ReconcileRaised?
  {
    hide Register, FirstPending;
  }

  /** Otherwise reconciliation closes the saga or writes something. */
  lemma ReconcileMoves(sys: System, plan: Plan)
    requires SystemOk(sys) && Running(sys.store, plan)
    requires FirstPending(Record(sys, plan).dispatches).Some? && !PendingRefused(sys, plan)
    ensures Reconcile(sys, plan).1.Unresolved? || Reconcile(sys, plan).0.store != sys.store
  {
    hide SystemOk, FirstPending, ResolveWith, Register, Settle, Lockstep, RowsKnown, Accounted, Truthful, RepliesFit;
    SagaParts(sys, plan);
    PendingFirst(Record(sys, plan));
    var row := FirstPending(Record(sys, plan).dispatches).value;
    if row.request.key in sys.adapter.results {
      var reply := sys.adapter.results[row.request.key];
      if reply.service == row.request.service && reply.verb == row.request.verb {
        LastIsNext(Record(sys, plan));
        ResolveMoves(sys, plan, row.step, reply);
      }
    }
  }

  lemma LastIsNext(record: SagaRecord)
    requires Shaped(record) && !NothingPending(record)
    ensures record.dispatches != [] && IsWrite(Last(record.dispatches).step) && Ordinal(Last(record.dispatches).step) == |record.steps|
    ensures IsPending(record.dispatches, Last(record.dispatches).step)
  {
    assert Last(record.dispatches) in record.dispatches;
  }

  lemma ResolveMoves(sys: System, plan: Plan, step: Step, reply: Reply)
    requires Running(sys.store, plan) && IsWrite(step) && Ordinal(step) == |Record(sys, plan).steps|
    requires IsPending(Record(sys, plan).dispatches, step)
    requires IsAdd(step) && step != CampaignAdd ==> Register(sys.store, plan.request.execution, step, reply.created).1.Ok?
    ensures ResolveWith(sys, plan, step, reply).1.Unresolved? || ResolveWith(sys, plan, step, reply).0.store != sys.store
  {
    hide Settle, AllIn, StatesOf;
    if step == CampaignAdd {
      hide CompleteAdd;
      var consumed := ConsumeAuthority(sys.store, plan);
      if consumed.1.Ok? {
        ConsumedStays(sys, plan, reply.created);
      }
    } else if IsAdd(step) {
      hide CompleteAdd;
      RegisteredStays(sys, plan, step, reply.created);
    } else {
      CloseMoves(sys, plan, step, if step == ModerationSubmit then States(StatesOf(reply.readback)) else States([On]));
      hide CloseStep;
    }
  }

  lemma ConsumedStays(sys: System, plan: Plan, created: seq<Created>)
    requires Running(sys.store, plan) && ConsumeAuthority(sys.store, plan).1.Ok?
    ensures Running(ConsumeAuthority(sys.store, plan).0, plan)
    ensures CompleteAdd(sys.(store := ConsumeAuthority(sys.store, plan).0), plan, CampaignAdd, created).0.store != sys.store
  {
    hide RegisterRecord, CompleteRecord, TypesMatch;
    var r := CompleteAdd(sys.(store := ConsumeAuthority(sys.store, plan).0), plan, CampaignAdd, created).0;
    assert r.store.reservations[plan.request.reservation].status == Used;
  }

  lemma RegisteredStays(sys: System, plan: Plan, step: Step, created: seq<Created>)
    requires Running(sys.store, plan) && Register(sys.store, plan.request.execution, step, created).1.Ok?
    ensures CompleteAdd(sys, plan, step, created).0.store != sys.store
  {
    hide TypesMatch, CloseDispatch, RefsOf, DistinctRefs, IsPending, HasStep;
    var r := CompleteAdd(sys, plan, step, created).0;
    assert |Record(r, plan).objects| == |Record(sys, plan).objects| + |created|;
  }

  lemma CloseMoves(sys: System, plan: Plan, step: Step, response: Response)
    requires Running(sys.store, plan) && Ordinal(step) == |Record(sys, plan).steps|
    requires IsWrite(step) ==> IsPending(Record(sys, plan).dispatches, step)
    ensures CloseStep(sys, plan, step, response).1.Done? && CloseStep(sys, plan, step, response).0.store != sys.store
  {
    hide CloseDispatch, IsPending, HasStep;
    assert |Record(CloseStep(sys, plan, step, response).0, plan).steps| == |Record(sys, plan).steps| + 1;
  }

  /**
   * A saga with a pending dispatch is stuck if and only if a reply is remembered that cannot be registered: it is of another
   * kind, or it belongs to a later add step whose objects are registered already. It makes no difference what later calls
   * meet.
   */
  lemma PendingStuckWhen(sys: System, plan: Plan)
    requires SystemOk(sys) && Running(sys.store, plan) && FirstPending(Record(sys, plan).dispatches).Some?
    ensures Stuck(sys, plan) <==> PendingRefused(sys, plan)
    ensures CalmStuck(sys, plan) <==> PendingRefused(sys, plan)
  {
    hide SystemOk, FirstPending, Stuck, CalmStuck, PendingRefused, Execute, Reconcile, KeyedFor;
    RunningIsKeyed(sys, plan);
    if PendingRefused(sys, plan) {
      RefusedRaises(sys, plan);
      RaisingIsStuck(sys, plan);
      StuckIsCalmStuck(sys, plan);
    } else {
      ReconcileMoves(sys, plan);
      MovedCall(sys, plan);
      NotCalmStuck(sys, plan, 0, ANYBODY, Some(0));
    }
  }

  lemma RunningIsKeyed(sys: System, plan: Plan)
    requires Running(sys.store, plan)
    ensures KeyedFor(sys.store, plan)
  {
  }

  lemma {:induction false} MovedCall(sys: System, plan: Plan)
    requires SystemOk(sys) && Running(sys.store, plan) && KeyedFor(sys.store, plan)
    requires Reconcile(sys, plan).1.Unresolved? || Reconcile(sys, plan).0.store != sys.store
    ensures var r := Execute(CALM, sys, plan, 0, ANYBODY, Some(0)); r.0.store != sys.store || !r.1.ExecuteRaised?
  {
    hide Reconcile, SystemOk, Shaped, Lockstep, RowsKnown, Accounted, Truthful, RepliesFit;
    SagaParts(sys, plan);
    assert sys.(store := sys.store) == sys;
  }

  lemma RaisingIsStuck(sys: System, plan: Plan)
    requires Running(sys.store, plan) && KeyedFor(sys.store, plan)
    requires Reconcile(sys, plan).0 == sys && Reconcile(sys, plan).1.ReconcileRaised?
    ensures Stuck(sys, plan)
  {
    hide Reconcile;
    forall env, now, approver, maxSteps
      ensures var r := Execute(env, sys, plan, now, approver, maxSteps); r.0 == sys && r.1.ExecuteRaised?
    {
      ExecuteRaises(env, sys, plan, now, approver, maxSteps);
    }
  }

  lemma {:induction false} ExecuteRaises(env: Env, sys: System, plan: Plan, now: int, approver: Principal, maxSteps: Option<int>)
    requires Running(sys.store, plan) && KeyedFor(sys.store, plan)
    requires Reconcile(sys, plan).0 == sys && Reconcile(sys, plan).1.ReconcileRaised?
    ensures var r := Execute(env, sys, plan, now, approver, maxSteps); r.0 == sys && r.1.ExecuteRaised?
  {
    hide Reconcile;
    assert sys.(store := sys.store) == sys;
  }

  // ---------- with nothing pending ----------

  /** Every live object of a kind can be read back, and there is one. */
  predicate CanRead(sys: System, plan: Plan, service: Service)
    requires Loaded(sys.store, plan)
  {
    LiveRefs(sys, plan, service) != [] && forall ref <- LiveRefs(sys, plan, service) :: ref in sys.adapter.objects
  }

  /** The operation of a write step cannot be built from the live rows, or its objects are not in the state it needs. */
  predicate WriteRefused(sys: System, plan: Plan, step: Step)
    requires Loaded(sys.store, plan)
  {
    var request := HandlerRequest(plan, Live(Record(sys, plan).objects), step);
    request.Rejected? || (!IsAdd(step) && !MoveGuard(sys, plan, step, request.value))
  }

  /** The next step is refused, by the stored plan, the live rows and the adapter's objects. */
  predicate NextRefused(sys: System, plan: Plan)
    requires Loaded(sys.store, plan)
  {
    |Record(sys, plan).steps| < |SAGA_STEPS|
    && match SAGA_STEPS[|Record(sys, plan).steps|]
       case ModerationReadback => !CanRead(sys, plan, Ads)
       case FullReadback =>
         !CanRead(sys, plan, Campaigns) || !CanRead(sys, plan, AdGroups) || !CanRead(sys, plan, Ads) || !CanRead(sys, plan, Keywords)
       case step => WriteRefused(sys, plan, step)
  }

  /** It is refused before the adapter is called at all. */
  predicate RefusedUnseen(sys: System, plan: Plan)
    requires Loaded(sys.store, plan)
  {
    NextRefused(sys, plan)
    && match SAGA_STEPS[|Record(sys, plan).steps|]
       case ModerationReadback => LiveRefs(sys, plan, Ads) == []
       case FullReadback => LiveRefs(sys, plan, Campaigns) == []
       case _ => true
  }

  lemma {:induction false} LiveRefsOwned(sys: System, plan: Plan, service: Service)
    requires Loaded(sys.store, plan)
    ensures forall ref :: ref in LiveRefs(sys, plan, service) ==> Owned(sys.store, plan.request.run, ref) && ref.service == service
  {
    hide Live, OfService;
    var live := Live(Record(sys, plan).objects);
    OfServiceIn(live, service);
    forall ref | ref in LiveRefs(sys, plan, service) ensures Owned(sys.store, plan.request.run, ref) && ref.service == service {
      var i :| 0 <= i < |live| && live[i].ref == ref;
      assert CreatedRefs(live)[i] == ref;
      LiveIsOwned(sys, plan, ref);
    }
  }

  lemma {:induction false} OfServiceIn(created: seq<Created>, service: Service)
    ensures forall ref :: ref in OfService(created, service) ==>
              ref.service == service && exists i :: 0 <= i < |created| && created[i].ref == ref
  {
    if created != [] {
      OfServiceIn(created[1..], service);
      forall ref | ref in OfService(created, service)
        ensures ref.service == service && exists i :: 0 <= i < |created| && created[i].ref == ref
      {
        if ref in OfService(created[1..], service) {
          var i :| 0 <= i < |created[1..]| && created[1..][i].ref == ref;
          assert created[i + 1].ref == ref;
        } else {
          assert created[0].ref == ref;
        }
      }
    }
  }

  // ---------- a refused step ----------

  lemma UnseenRaises(env: Env, sys: System, plan: Plan)
    requires AtRest(sys, plan) && RefusedUnseen(sys, plan)
    ensures var r := RunStep(env, sys, plan, SAGA_STEPS[|Record(sys, plan).steps|]); r.0 == sys && r.1.Raised?
  {
    hide SystemOk, NothingPending, Send, LiveRefs, Live, CloseStep, CompleteAdd, Owned, ConsumeAuthority;
    var step := SAGA_STEPS[|Record(sys, plan).steps|];
    if step in {ModerationSubmit, CampaignLaunch} {
      MoveRaises(env, sys, plan, step);
    }
  }

  lemma MoveRaises(env: Env, sys: System, plan: Plan, step: Step)
    requires Running(sys.store, plan) && step in {ModerationSubmit, CampaignLaunch} && WriteRefused(sys, plan, step)
    ensures var r := RunStep(env, sys, plan, step); r.0 == sys && r.1.Raised?
  {
    hide Send, Live, CloseStep, StateAllows, OfService;
    var request := HandlerRequest(plan, Live(Record(sys, plan).objects), step);
    if request.Ok? && step == CampaignLaunch {
      var id := request.value.payload.id;
      assert IdsOf(request.value.payload) == [id] && id in [id];
      assert MoveGuard(sys, plan, step, request.value) <==> forall other <- [id] :: StateAllows(sys, plan.request.run, other, {Suspended});
    }
  }

  /** A fault-free read of live objects: answered when all are there, otherwise refused, with one more entry in the log. */
  lemma ReadSeen(now: System, sys: System, plan: Plan, service: Service)
    requires SystemOk(now) && Loaded(sys.store, plan) && now.store == sys.store && Core(now.adapter) == Core(sys.adapter)
    requires |now.adapter.calls| >= |sys.adapter.calls|
    ensures var r := Read(CALM, now, plan.request.run, service, LiveRefs(sys, plan, service));
            && SystemOk(r.0) && r.0.store == sys.store && Core(r.0.adapter) == Core(sys.adapter)
            && (LiveRefs(sys, plan, service) != [] ==> |r.0.adapter.calls| > |sys.adapter.calls|)
            && |r.0.adapter.calls| >= |sys.adapter.calls|
            && (CanRead(sys, plan, service) ==> r.1.Answered?)
            && (!CanRead(sys, plan, service) ==> r.1.TransitionRejected?)
  {
    hide SystemOk, LiveRefs, Owned;
    var ids := LiveRefs(sys, plan, service);
    LiveRefsOwned(sys, plan, service);
    ReadKeeps(CALM, now, plan.request.run, service, ids);
    ReadNotRemembered(now, ReadRequest(plan.request.run, service, ids).key);
    assert Core(now.adapter).objects == Core(sys.adapter).objects;
  }

  lemma NextRaises(sys: System, plan: Plan)
    requires AtRest(sys, plan) && NextRefused(sys, plan)
    ensures var r := RunStep(CALM, sys, plan, SAGA_STEPS[|Record(sys, plan).steps|]);
            && r.1.Raised? && Same(r.0, sys) && (!RefusedUnseen(sys, plan) ==> r.0 != sys)
  {
    hide SystemOk, Core, LiveRefs, Live, CloseStep, CompleteAdd, Owned, ConsumeAuthority, Read, Send, CanRead, MoveGuard;
    var step := SAGA_STEPS[|Record(sys, plan).steps|];
    AtRestBegins(sys, plan);
    if RefusedUnseen(sys, plan) {
      UnseenRaises(CALM, sys, plan);
    } else if step == ModerationReadback {
      ReadSeen(sys, sys, plan, Ads);
    } else {
      ReadsSeen(sys, plan);
    }
  }

  lemma AtRestBegins(sys: System, plan: Plan)
    requires AtRest(sys, plan) && |Record(sys, plan).steps| < |SAGA_STEPS|
    ensures BeginStep(Record(sys, plan), SAGA_STEPS[|Record(sys, plan).steps|]).Ok?
    ensures Ordinal(SAGA_STEPS[|Record(sys, plan).steps|]) == |Record(sys, plan).steps|
  {
    hide SystemOk, Shaped, Lockstep, RowsKnown, Accounted, Truthful, RepliesFit, FirstPending;
    SagaParts(sys, plan);
    PendingFirst(Record(sys, plan));
    OrdinalOf(|Record(sys, plan).steps|);
  }

  /** The four reads of the last step, up to the first that is refused. */
  lemma ReadsSeen(sys: System, plan: Plan)
    requires AtRest(sys, plan)
    ensures var r := FullReadbackStep(CALM, sys, plan);
            && ((CanRead(sys, plan, Campaigns) && CanRead(sys, plan, AdGroups) && CanRead(sys, plan, Ads) && CanRead(sys, plan, Keywords))
                || (r.1.Raised? && Same(r.0, sys) && (LiveRefs(sys, plan, Campaigns) != [] ==> r.0 != sys)))
  {
    hide SystemOk, Core, LiveRefs, Read, CanRead, CloseStep, ReadbackMatches, SeenRefs, NothingPending;
    var run := plan.request.run;
    ReadSeen(sys, sys, plan, Campaigns);
    var one := Read(CALM, sys, run, Campaigns, LiveRefs(sys, plan, Campaigns));
    if one.1.Answered? {
      CanReadSome(sys, plan, Campaigns);
      ReadSeen(one.0, sys, plan, AdGroups);
      var two := Read(CALM, one.0, run, AdGroups, LiveRefs(sys, plan, AdGroups));
      LogGrows(one.0, sys, plan, AdGroups);
      if two.1.Answered? {
        ReadSeen(two.0, sys, plan, Ads);
        LogGrows(two.0, sys, plan, Ads);
        var three := Read(CALM, two.0, run, Ads, LiveRefs(sys, plan, Ads));
        if three.1.Answered? {
          ReadSeen(three.0, sys, plan, Keywords);
          LogGrows(three.0, sys, plan, Keywords);
        }
      }
    }
  }

  lemma CanReadSome(sys: System, plan: Plan, service: Service)
    requires Loaded(sys.store, plan)
    ensures CanRead(sys, plan, service) ==> LiveRefs(sys, plan, service) != []
  {
  }

  lemma LogGrows(now: System, sys: System, plan: Plan, service: Service)
    requires Loaded(sys.store, plan)
    ensures |Read(CALM, now, plan.request.run, service, LiveRefs(sys, plan, service)).0.adapter.calls| >= |now.adapter.calls|
  {
    hide LiveRefs, Apply, Owned;
  }

  // ---------- a step that is not refused ----------

  /** A fault-free next step that is not refused ends otherwise than by raising. */
  lemma NextGoes(sys: System, plan: Plan)
    requires AtRest(sys, plan) && |Record(sys, plan).steps| < |SAGA_STEPS| && !NextRefused(sys, plan)
    ensures !RunStep(CALM, sys, plan, SAGA_STEPS[|Record(sys, plan).steps|]).1.Raised?
  {
    hide AtRest, WriteRefused, CanRead, RunStep;
    RestRuns(sys, plan);
    var step := SAGA_STEPS[|Record(sys, plan).steps|];
    match step
    case ModerationReadback => ModerationGoes(sys, plan);
    case FullReadback => FullGoes(sys, plan);
    case ModerationSubmit => MoveGoes(sys, plan);
    case CampaignLaunch => MoveGoes(sys, plan);
    case _ => AddGoes(sys, plan);
  }

  lemma ModerationGoes(sys: System, plan: Plan)
    requires AtRest(sys, plan) && |Record(sys, plan).steps| == 5 && CanRead(sys, plan, Ads)
    ensures !RunStep(CALM, sys, plan, ModerationReadback).1.Raised?
  {
    hide SystemOk, NothingPending, Core, LiveRefs, CanRead, Read, AllIn, CloseStep, BeginStep;
    AtRestBegins(sys, plan);
    ReadSeen(sys, sys, plan, Ads);
    var read := Read(CALM, sys, plan.request.run, Ads, LiveRefs(sys, plan, Ads));
    CloseMoves(read.0, plan, ModerationReadback, States(StatesOf(read.1.reply.readback)));
  }

  lemma FullGoes(sys: System, plan: Plan)
    requires AtRest(sys, plan) && |Record(sys, plan).steps| == 7
    requires CanRead(sys, plan, Campaigns) && CanRead(sys, plan, AdGroups) && CanRead(sys, plan, Ads) && CanRead(sys, plan, Keywords)
    ensures !RunStep(CALM, sys, plan, FullReadback).1.Raised?
  {
    hide SystemOk, NothingPending, Core, LiveRefs, CanRead, Read, ReadbackMatches, SeenRefs, CloseStep, BeginStep;
    AtRestBegins(sys, plan);
    var run := plan.request.run;
    ReadSeen(sys, sys, plan, Campaigns);
    var one := Read(CALM, sys, run, Campaigns, LiveRefs(sys, plan, Campaigns));
    ReadSeen(one.0, sys, plan, AdGroups);
    var two := Read(CALM, one.0, run, AdGroups, LiveRefs(sys, plan, AdGroups));
    ReadSeen(two.0, sys, plan, Ads);
    var three := Read(CALM, two.0, run, Ads, LiveRefs(sys, plan, Ads));
    ReadSeen(three.0, sys, plan, Keywords);
    var four := Read(CALM, three.0, run, Keywords, LiveRefs(sys, plan, Keywords));
    var c, g, a, k := one.1.reply.readback, two.1.reply.readback, three.1.reply.readback, four.1.reply.readback;
    CloseMoves(four.0, plan, FullReadback, ReadbackIds(SeenRefs(c), SeenRefs(g), SeenRefs(a), SeenRefs(k)));
  }

  lemma MoveGoes(sys: System, plan: Plan)
    requires AtRest(sys, plan) && (|Record(sys, plan).steps| == 4 || |Record(sys, plan).steps| == 6)
    requires !WriteRefused(sys, plan, SAGA_STEPS[|Record(sys, plan).steps|])
    ensures var n := |Record(sys, plan).steps|;
            var r := RunStep(CALM, sys, plan, SAGA_STEPS[n]);
            && r.1.Done?
            && forall id :: id in IdsOf(HandlerRequest(plan, Live(Record(sys, plan).objects), SAGA_STEPS[n]).value.payload) ==>
                 id in r.0.adapter.objects && r.0.adapter.objects[id].state == if n == 4 then Moderation else On
  {
    hide SystemOk, NothingPending, Apply, Live, OfService, BeginStep, Send, CloseStep, RunStep, StateAllows, HandlerRequest, Owned, IdsOf;
    var n := |Record(sys, plan).steps|;
    var step := SAGA_STEPS[n];
    AtRestBegins(sys, plan);
    StepsDoneIs(sys, plan);
    var live := Live(Record(sys, plan).objects);
    var request := HandlerRequest(plan, live, step).value;
    DraftOf(sys, plan);
    HandlerRequestFits(plan, live, step);
    GuardMeans(sys, plan, step, request);
    CalmMoves(sys.adapter, request, if n == 4 then Moderation else On);
    CalmSends(sys, plan, n, request);
    var sent := Send(CALM, sys, request);
    MoveStepIs(CALM, sys, plan, step, request);
    assert Last(Record(sent.0, plan).dispatches) in Record(sent.0, plan).dispatches;
    CloseMoves(sent.0, plan, step, if n == 4 then States(StatesOf(sent.1.reply.readback)) else States([On]));
    CloseKeepsAdapter(sent.0, plan, step, if n == 4 then States(StatesOf(sent.1.reply.readback)) else States([On]));
  }

  lemma CloseKeepsAdapter(sys: System, plan: Plan, step: Step, response: Response)
    requires Running(sys.store, plan)
    ensures CloseStep(sys, plan, step, response).0.adapter == sys.adapter
  {
    hide Complete;
  }

  lemma GuardMeans(sys: System, plan: Plan, step: Step, request: DirectRequest)
    requires MoveGuard(sys, plan, step, request)
    ensures forall id :: id in IdsOf(request.payload) ==> Owned(sys.store, plan.request.run, id) && id in sys.adapter.objects
  {
    hide Owned, IdsOf;
  }

  lemma AddGoes(sys: System, plan: Plan)
    requires AtRest(sys, plan) && |Record(sys, plan).steps| < 4
    requires !WriteRefused(sys, plan, SAGA_STEPS[|Record(sys, plan).steps|])
    ensures !RunStep(CALM, sys, plan, SAGA_STEPS[|Record(sys, plan).steps|]).1.Raised?
  {
    hide SystemOk, NothingPending, Apply, Live, OfService, BeginStep, Send, CompleteAdd, HandlerRequest, TypesMatch, DistinctRefs,
         RefsOf, Numbered, ConsumeAuthority, BelowCounters;
    var n := |Record(sys, plan).steps|;
    var step := SAGA_STEPS[n];
    AtRestBegins(sys, plan);
    StepsDoneIs(sys, plan);
    var live := Live(Record(sys, plan).objects);
    var request := HandlerRequest(plan, live, step).value;
    DraftOf(sys, plan);
    HandlerRequestFits(plan, live, step);
    AddRequestShape(plan, live, step);
    CountersAhead(sys);
    AddApplies(sys.adapter, request);
    CalmSends(sys, plan, n, request);
    var sent := Send(CALM, sys, request);
    var created := sent.1.reply.created;
    NewObjectsFit(sys, plan, live, step, request, created);
    SendKeepsRunning(CALM, sys, plan, request);
    SentKeepsIndex(sys, sent.0, plan);
    var used := if n == 0 then sent.0.(store := ConsumeAuthority(sent.0.store, plan).0) else sent.0;
    ConsumeFrame(sent.0.store, plan);
    CalmCloses(used, plan, step, created, Record(sys, plan), request);
  }

  lemma CountersAhead(sys: System)
    requires SystemOk(sys)
    ensures BelowCounters(sys.adapter) && Numbered(sys)
  {
    hide Keyed, GrantsBound, SentOnce, SagaOk;
  }

  lemma SentKeepsIndex(sys: System, sent: System, plan: Plan)
    requires Loaded(sys.store, plan)
    requires exists record :: sent.store == Put(sys.store, plan.request.execution, record)
    ensures sent.store.index == sys.store.index
  {
  }

  lemma ConsumeFrame(st: Store, plan: Plan)
    requires Running(st, plan)
    ensures var used := ConsumeAuthority(st, plan).0; Running(used, plan) && used.sagas == st.sagas && used.index == st.index
  {
  }

  /** The objects a fault-free add answers with are new, different and of the planned types. */
  lemma NewObjectsFit(sys: System, plan: Plan, live: seq<Created>, step: Step, request: DirectRequest, created: seq<Created>)
    requires Numbered(sys) && ValidDraft(plan.request.draft) && IsAdd(step) && HandlerRequest(plan, live, step) == Ok(request)
    requires RequestFits(plan, step, request) && |created| == |NewContents(request.payload)|
    requires forall i :: 0 <= i < |created| ==>
               created[i] == Created(NextRef(sys.adapter, request.service, i), NewType(map[], request.service, request.payload))
    ensures created != [] && DistinctRefs(created) && RefsOf(created) * sys.store.index == {} && TypesMatch(created, step)
  {
    hide Live, OfService, NewContents;
  }

  // ---------- when a resting saga is stuck ----------

  /** What one call of a resting saga does, when its next step raises or does not. */
  lemma {:induction false} CallOfStep(env: Env, sys: System, plan: Plan, now: int, approver: Principal, maxSteps: Option<int>)
    requires AtRest(sys, plan) && |Record(sys, plan).steps| < |SAGA_STEPS|
    ensures KeyedFor(sys.store, plan)
    ensures var r := Execute(env, sys, plan, now, approver, maxSteps);
            var ran := RunStep(env, sys, plan, SAGA_STEPS[|Record(sys, plan).steps|]);
            && (maxSteps.Some? && maxSteps.value < 1 ==> r.0 == sys && r.1.ExecuteRaised?)
            && ((maxSteps.Some? ==> maxSteps.value >= 1) && ran.1.Raised? ==> r.0 == ran.0 && r.1.ExecuteRaised?)
            && (maxSteps == Some(1) && (ran.1.Done? || ran.1.Failure?) ==> r.1 == Returned(false))
            && (maxSteps == Some(1) && ran.1.Unknown? && Reconcile(ran.0, plan).1.Unresolved? ==> r.1 == Returned(false))
  {
    hide SystemOk, RunStep, Reconcile, NothingPending, FinishAfterFailure, Settle, FinishIfComplete;
    RestReconcilesNow(sys, plan);
    DraftOf(sys, plan);
    assert sys.(store := sys.store) == sys;
    FinishReturns(sys, plan);
  }

  lemma FinishReturns(sys: System, plan: Plan)
    ensures forall other: System :: Loaded(other.store, plan) ==> FinishIfComplete(other, plan).1 == Returned(false)
  {
  }

  lemma RestReconcilesNow(sys: System, plan: Plan)
    requires AtRest(sys, plan)
    ensures Reconcile(sys, plan) == (sys, Resolved)
  {
    hide SystemOk, ResolveWith, FirstPending, Shaped, Lockstep, RowsKnown, Accounted, Truthful, RepliesFit;
    SagaParts(sys, plan);
    PendingFirst(Record(sys, plan));
  }

  /** A completed saga is closed by the next call. */
  lemma {:induction false} CallOfComplete(sys: System, plan: Plan)
    requires AtRest(sys, plan) && |Record(sys, plan).steps| >= |SAGA_STEPS|
    ensures KeyedFor(sys.store, plan)
    ensures !Execute(CALM, sys, plan, 0, ANYBODY, None).1.ExecuteRaised?
  {
    hide SystemOk, RunStep, Reconcile, NothingPending, FinishAfterFailure, Settle, FinishIfComplete;
    RestReconcilesNow(sys, plan);
    DraftOf(sys, plan);
    assert sys.(store := sys.store) == sys;
    FinishReturns(sys, plan);
  }

  /**
   * A saga with nothing pending is stuck for fault-free calls if and only if its next step is refused by the stored plan,
   * the live rows and the adapter's objects; and it is stuck whatever later calls meet if and only if it is refused before
   * the adapter is called. In between a fault-free call leaves its trace in the adapter's log, and nothing else.
   */
  lemma RestStuckWhen(sys: System, plan: Plan)
    requires AtRest(sys, plan)
    ensures CalmStuck(sys, plan) <==> NextRefused(sys, plan)
    ensures Stuck(sys, plan) <==> RefusedUnseen(sys, plan)
  {
    hide AtRest, Stuck, CalmStuck, NextRefused, RefusedUnseen, Execute, KeyedFor, RunStep;
    RestRuns(sys, plan);
    RunningIsKeyed(sys, plan);
    if |Record(sys, plan).steps| >= |SAGA_STEPS| {
      CallOfComplete(sys, plan);
      NotCalmStuck(sys, plan, 0, ANYBODY, None);
      CompleteIsNotRefused(sys, plan);
    } else if !NextRefused(sys, plan) {
      NextGoes(sys, plan);
      GoingCall(sys, plan);
      NotCalmStuck(sys, plan, 0, ANYBODY, Some(1));
      UnseenIsRefused(sys, plan);
    } else {
      RefusedCalmStuck(sys, plan);
      if RefusedUnseen(sys, plan) {
        UnseenStuck(sys, plan);
      } else {
        SeenNotStuck(sys, plan);
      }
    }
  }

  lemma RestRuns(sys: System, plan: Plan)
    requires AtRest(sys, plan)
    ensures Running(sys.store, plan) && SystemOk(sys)
  {
    hide SystemOk;
  }

  lemma CompleteIsNotRefused(sys: System, plan: Plan)
    requires Loaded(sys.store, plan) && |Record(sys, plan).steps| >= |SAGA_STEPS|
    ensures !NextRefused(sys, plan) && !RefusedUnseen(sys, plan)
  {
  }

  lemma UnseenIsRefused(sys: System, plan: Plan)
    requires Loaded(sys.store, plan) && !NextRefused(sys, plan)
    ensures !RefusedUnseen(sys, plan)
  {
    hide NextRefused;
  }

  lemma {:induction false} GoingCall(sys: System, plan: Plan)
    requires AtRest(sys, plan) && |Record(sys, plan).steps| < |SAGA_STEPS|
    requires !RunStep(CALM, sys, plan, SAGA_STEPS[|Record(sys, plan).steps|]).1.Raised?
    ensures KeyedFor(sys.store, plan) && !Execute(CALM, sys, plan, 0, ANYBODY, Some(1)).1.ExecuteRaised?
  {
    hide RunStep, Execute, SystemOk, NothingPending, Reconcile;
    CallOfStep(CALM, sys, plan, 0, ANYBODY, Some(1));
    StepLoses(CALM, sys, plan, SAGA_STEPS[|Record(sys, plan).steps|]);
  }

  lemma RefusedCalmStuck(sys: System, plan: Plan)
    requires AtRest(sys, plan) && NextRefused(sys, plan) && KeyedFor(sys.store, plan)
    ensures CalmStuck(sys, plan)
  {
    hide RunStep, Execute, SystemOk, NothingPending, Core;
    NextRaises(sys, plan);
    forall now, approver, maxSteps
      ensures var r := Execute(CALM, sys, plan, now, approver, maxSteps); Same(r.0, sys) && r.1.ExecuteRaised?
    {
      CallOfStep(CALM, sys, plan, now, approver, maxSteps);
    }
    hide NextRefused;
  }

  lemma UnseenStuck(sys: System, plan: Plan)
    requires AtRest(sys, plan) && RefusedUnseen(sys, plan) && KeyedFor(sys.store, plan)
    ensures Stuck(sys, plan)
  {
    hide RunStep, Execute, SystemOk, NothingPending;
    forall env, now, approver, maxSteps
      ensures var r := Execute(env, sys, plan, now, approver, maxSteps); r.0 == sys && r.1.ExecuteRaised?
    {
      UnseenRaises(env, sys, plan);
      CallOfStep(env, sys, plan, now, approver, maxSteps);
    }
    hide RefusedUnseen;
  }

  lemma SeenNotStuck(sys: System, plan: Plan)
    requires AtRest(sys, plan) && NextRefused(sys, plan) && !RefusedUnseen(sys, plan) && KeyedFor(sys.store, plan)
    ensures !Stuck(sys, plan)
  {
    hide RunStep, Execute, SystemOk, NothingPending, NextRefused, RefusedUnseen, Core;
    NextRaises(sys, plan);
    RefusedHasNext(sys, plan);
    CallOfStep(CALM, sys, plan, 0, ANYBODY, None);
    hide Stuck;
    if Stuck(sys, plan) {
      AnyCall(sys, plan, CALM, 0, ANYBODY, None);
    }
  }

  lemma RefusedHasNext(sys: System, plan: Plan)
    requires Loaded(sys.store, plan) && NextRefused(sys, plan)
    ensures |Record(sys, plan).steps| < |SAGA_STEPS|
  {
  }

  // ---------- stops that leave a saga stuck ----------

  /** The row that reconciliation looks at is the pending step's own. */
  lemma PendingIs(sys: System, plan: Plan, step: Step)
    requires SystemOk(sys) && Awaits(sys, plan, step)
    ensures Shaped(Record(sys, plan)) && KeyedFor(sys.store, plan)
    ensures FirstPending(Record(sys, plan).dispatches) == Some(Last(Record(sys, plan).dispatches))
    ensures Last(Record(sys, plan).dispatches).request.key == StepKey(plan.request.execution, step)
  {
    hide SystemOk, Lockstep, RowsKnown, Accounted, Truthful, RepliesFit;
    SagaParts(sys, plan);
    PendingFirst(Record(sys, plan));
  }

  /** The same objects cannot be registered twice. */
  lemma RegisteredCollides(st: Store, execution: string, step: Step, created: seq<Created>)
    requires execution in st.sagas && Register(st, execution, step, created).1.Ok?
    ensures execution in Register(st, execution, step, created).0.sagas
    ensures Register(Register(st, execution, step, created).0, execution, step, created).1.Rejected?
  {
    var later := Register(st, execution, step, created).0;
    assert created[0].ref in RefsOf(created) by { assert created[0] in created; }
    assert created[0].ref in RefsOf(created) * later.index;
    hide RefsOf;
  }

  /**
   * A crash between registering the objects of a later add step and closing the step: reconciliation registers them again,
   * the primary key refuses, and the saga stays in flight for ever.
   */
  lemma CrashAfterRegistering(c: Config)
    requires Inv(c) && c.at.Replied? && IsAdd(c.at.step) && c.at.step != CampaignAdd
    requires DoRegister(c).at.Registered?
    ensures Stuck(DoRegister(c).sys, c.at.plan)
  {
    hide SystemOk, KeyedFor, Register, FirstPending, Stuck, Shaped;
    var plan, step, reply := c.at.plan, c.at.step, c.at.reply;
    var sys := DoRegister(c).sys;
    RegisterObjectsInv(c);
    PendingIs(c.sys, plan, step);
    RegisteredCollides(c.sys.store, plan.request.execution, step, reply.created);
    RegisterKeepsDispatches(c.sys.store, plan, step, reply.created);
    PendingStuckWhen(sys, plan);
  }

  lemma RegisterKeepsDispatches(st: Store, plan: Plan, step: Step, created: seq<Created>)
    requires Running(st, plan) && KeyedFor(st, plan)
    ensures var later := Register(st, plan.request.execution, step, created).0;
            && Running(later, plan) && KeyedFor(later, plan)
            && later.sagas[plan.request.execution].dispatches == st.sagas[plan.request.execution].dispatches
  {
  }

  /**
   * A lost response whose objects have the wrong type: reconciliation registers them and raises instead of compensating;
   * the saga stays in flight with their rows, and from then on it is stuck.
   */
  lemma LostWrongTypeIsStuck(sys: System, plan: Plan, step: Step, reply: Reply)
    requires SystemOk(sys) && Awaits(sys, plan, step) && IsAdd(step) && step != CampaignAdd && Answers(sys, plan, step, reply)
    requires var request := Last(Record(sys, plan).dispatches).request;
             reply.service == request.service && reply.verb == request.verb
    requires Register(sys.store, plan.request.execution, step, reply.created).1.Ok? && !TypesMatch(reply.created, step)
    ensures Reconcile(sys, plan) == (sys.(store := Register(sys.store, plan.request.execution, step, reply.created).0),
                                     ReconcileRaised("CREATED_OBJECT_TYPE_MISMATCH"))
    ensures Stuck(Reconcile(sys, plan).0, plan)
  {
    hide SystemOk, KeyedFor, Register, FirstPending, Stuck, TypesMatch, Shaped;
    PendingIs(sys, plan, step);
    RegisteredCollides(sys.store, plan.request.execution, step, reply.created);
    RegisterKeepsDispatches(sys.store, plan, step, reply.created);
    RegisterKeeps(sys, plan, step, reply.created, reply);
    PendingStuckWhen(Reconcile(sys, plan).0, plan);
  }

  /** A crash after the authority was used and before the campaign is registered: reconciliation ends UNKNOWN_RESULT. */
  lemma CrashAfterAuthority(c: Config)
    requires Inv(c) && c.at.Authorized?
    requires var request := Last(Record(c.sys, c.at.plan).dispatches).request;
             c.at.reply.service == request.service && c.at.reply.verb == request.verb
    ensures Running(c.sys.store, c.at.plan)
    ensures Reconcile(c.sys, c.at.plan)
         == (Settle(c.sys, c.at.plan, UnknownResult, "FIRST_WRITE_AUTHORITY_RECONCILIATION_FAILED"), Unresolved)
  {
    hide SystemOk, FirstPending, Settle, Shaped;
    PendingIs(c.sys, c.at.plan, CampaignAdd);
  }

  /**
   * Two live executors of one saga: the second one's claim of the same write is refused as already dispatched, and its
   * cancellation takes back the first one's claim, so that nothing shows the call the first is about to make.
   */
  lemma SecondExecutorCancelsClaim(st: Store, plan: Plan, request: DirectRequest, gateOpen: bool)
    requires Running(st, plan) && request.run == plan.request.run && request.key.StepKey?
    requires Shaped(Record(System(st, NO_CALLS), plan))
    requires Claim(st, request, true).1 == Ok(true)
    requires !HasObjectsOf(st.sagas[plan.request.execution].objects, SAGA_STEPS[|st.sagas[plan.request.execution].steps|])
    ensures var first := Claim(st, request, true).0;
            && first != st
            && Claim(first, request, gateOpen).1.Rejected?
            && CancelClaim(Claim(first, request, gateOpen).0, request) == st
  {
    hide Shaped, ExpectedRequest;
    var record := st.sagas[plan.request.execution];
    var claimed := ClaimRecord(record, request, true).0;
    ClaimShape(record, request, true);
    WithoutNewest(record, claimed, request);
    assert HasDispatch(claimed.dispatches, Last(claimed.dispatches).step);
    assert Put(Put(st, plan.request.execution, claimed), plan.request.execution, record) == st;
    assert Put(Put(st, plan.request.execution, claimed), plan.request.execution, claimed) == Put(st, plan.request.execution, claimed);
  }

  const NO_CALLS := Adapter(map[], map[], map[], {}, [])

  lemma WithoutNewest(record: SagaRecord, claimed: SagaRecord, request: DirectRequest)
    requires Shaped(record) && NothingPending(record) && |record.steps| < |SAGA_STEPS|
    requires claimed == record.(dispatches := record.dispatches + [DispatchRow(|record.steps|, SAGA_STEPS[|record.steps|], request, false)])
    requires !HasObjectsOf(record.objects, SAGA_STEPS[|record.steps|])
    ensures CancelRecord(claimed, request) == record
  {
    var row := Last(claimed.dispatches);
    OnlyNewestGoes(claimed, request, record.dispatches, row);
  }

  lemma {:induction false} OnlyNewestGoes(record: SagaRecord, request: DirectRequest, done: seq<DispatchRow>, row: DispatchRow)
    requires forall i :: 0 <= i < |done| ==> done[i].completed
    requires Cancellable(record, request, row)
    ensures WithoutClaim(record, request, done + [row]) == done
  {
    if done == [] {
      assert [row][1..] == [];
    } else {
      assert (done + [row])[1..] == done[1..] + [row];
      OnlyNewestGoes(record, request, done[1..], row);
    }
  }
}
