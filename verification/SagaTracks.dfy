/**
 * Lost responses and chunked calls are invisible: a saga whose calls may lose their responses follows the
 * uninterrupted fault-free run, step by step, and ends in the same store and the same adapter objects.
 */
module SagaTracks {
  import opened Basics
  import opened CampaignTypes
  import opened DirectAdapter
  import opened SagaStore
  import opened SagaService
  import opened SagaMachine
  import opened SagaSafety
  import opened SagaInvariant
  import opened SagaEvents
  import opened SagaWrites
  import opened SagaRuns
  import opened SagaRefinement

  const CALM := Env(Faults({}, {}, map[]), {}, {})

  /** Nothing goes wrong except that responses may be lost. */
  predicate Lossy(env: Env) {
    env.faults.fail == {} && env.faults.types == map[] && env.closed == {} && env.blocked == {}
  }

  /** The adapter without its call log and its record of lost responses. */
  function Core(a: Adapter): Adapter {
    a.(calls := [], timedOut := {})
  }

  predicate Same(one: System, two: System) {
    one.store == two.store && Core(one.adapter) == Core(two.adapter)
  }

  // ---------- one call ----------

  lemma InvokeFollows(env: Env, a: Adapter, b: Adapter, request: DirectRequest)
    requires Lossy(env) && Core(a) == Core(b)
    ensures var r, s := Invoke(env.faults, a, request), Invoke(CALM.faults, b, request);
            && Core(r.0) == Core(s.0)
            && (r.1 == s.1
                || (r.1.OutcomeUnknown? && s.1.Answered? && env.faults.lose != {}
                    && (request.verb != Get ==> request.key in r.0.results && r.0.results[request.key] == s.1.reply)
                    && (request.verb == Get ==> Core(r.0) == Core(a))))
  {
    assert Apply(env.faults.types, a, request) == Apply(CALM.faults.types, b, request) by { ApplySame(env.faults.types, a, b, request); }
    hide Apply;
    if request.verb == Get {
      GetKeeps(env.faults.types, a, request);
    }
  }

  lemma ApplySame(types: map<Service, string>, a: Adapter, b: Adapter, request: DirectRequest)
    requires Core(a) == Core(b)
    ensures Apply(types, a, request) == Apply(types, b, request)
  {
    hide AddAll, MoveAll, ReadAll, NewContents, NewType, NewState;
    assert a.objects == Core(b).objects == b.objects && a.sequence == Core(b).sequence == b.sequence;
  }

  lemma GetKeeps(types: map<Service, string>, a: Adapter, request: DirectRequest)
    requires request.verb == Get
    ensures Apply(types, a, request).objects == a.objects && Apply(types, a, request).sequence == a.sequence
  {
  }

  // ---------- one connector call ----------

  lemma SendFollows(env: Env, one: System, two: System, request: DirectRequest)
    requires Lossy(env) && Same(one, two) && request.verb != Get
    ensures var r, s := Send(env, one, request), Send(CALM, two, request);
            s.1.Answered? ==>
              && Same(r.0, s.0)
              && (r.1 == s.1
                  || (r.1.OutcomeUnknown? && env.faults.lose != {}
                      && request.key in r.0.adapter.results && r.0.adapter.results[request.key] == s.1.reply))
  {
    hide Invoke, Claim, CancelClaim, Owned, Core;
    InvokeFollows(env, one.adapter, two.adapter, request);
  }

  lemma ReadFollows(env: Env, one: System, two: System, run: string, service: Service, ids: seq<ObjectRef>)
    requires Lossy(env) && Same(one, two)
    ensures var r, s := Read(env, one, run, service, ids), Read(CALM, two, run, service, ids);
            s.1.Answered? ==>
              && (r.1 == s.1 || (r.1.OutcomeUnknown? && env.faults.lose != {}))
              && Same(r.0, s.0) && Same(r.0, one)
  {
    hide Invoke, Owned, Core;
    InvokeFollows(env, one.adapter, two.adapter, ReadRequest(run, service, ids));
    ReadKeepsCore(env, one, run, service, ids);
    ReadKeepsCore(CALM, two, run, service, ids);
  }

  lemma ReadKeepsCore(env: Env, sys: System, run: string, service: Service, ids: seq<ObjectRef>)
    ensures Same(Read(env, sys, run, service, ids).0, sys)
  {
  }

  // ---------- one step ----------

  /** The lossy step either ends as the calm one, or its lost response is recovered by reconciliation. */
  ghost predicate Follows(env: Env, r: (System, StepOutcome), s: (System, StepOutcome), one: System, plan: Plan, step: Step)
    requires Running(r.0.store, plan)
  {
    if r.1.Done? then Same(r.0, s.0)
    else
      && r.1.Unknown? && env.faults.lose != {}
      && var recovered := Reconcile(r.0, plan);
      && recovered.1.Resolved?
      && (Same(recovered.0, s.0) || (!IsWrite(step) && Same(recovered.0, one)))
  }

  lemma CompleteAddSame(one: System, two: System, plan: Plan, step: Step, created: seq<Created>)
    requires Running(one.store, plan) && Same(one, two)
    ensures var r, s := CompleteAdd(one, plan, step, created), CompleteAdd(two, plan, step, created);
            r.1 == s.1 && Same(r.0, s.0)
  {
    hide Register, Complete, TypesMatch;
  }

  lemma CloseSame(one: System, two: System, plan: Plan, step: Step, response: Response)
    requires Running(one.store, plan) && Same(one, two)
    ensures var r, s := CloseStep(one, plan, step, response), CloseStep(two, plan, step, response);
            r.1 == s.1 && Same(r.0, s.0)
  {
    hide Complete;
  }

  /** A sent write is the first pending dispatch until its step is closed. */
  lemma SentIsPending(env: Env, sys: System, plan: Plan, step: Step, request: DirectRequest)
    requires Running(sys.store, plan) && IsWrite(step) && BeginStep(Record(sys, plan), step).Ok?
    requires Ok(request) == HandlerRequest(plan, Live(Record(sys, plan).objects), step)
    requires Send(env, sys, request).1.Answered? || Send(env, sys, request).1.OutcomeUnknown?
    ensures Running(Send(env, sys, request).0.store, plan)
    ensures var row := DispatchRow(Ordinal(step), step, request, false);
            FirstPending(Record(Send(env, sys, request).0, plan).dispatches) == Some(row)
  {
    hide Invoke, Live, OfService, Owned, CancelClaim, FirstPending, ExpectedRequest;
    SendKeepsRunning(env, sys, plan, request);
    FirstPendingOfAppended(Record(sys, plan).dispatches, DispatchRow(Ordinal(step), step, request, false));
  }

  lemma AddFollows(env: Env, one: System, two: System, plan: Plan, step: Step)
    requires Lossy(env) && Same(one, two) && Running(one.store, plan) && IsAdd(step)
    requires BeginStep(Record(one, plan), step).Ok?
    requires AddStep(CALM, two, plan, step).1.Done?
    ensures Follows(env, AddStep(env, one, plan, step), AddStep(CALM, two, plan, step), one, plan, step)
  {
    hide Send, Live, OfService, CompleteAdd, BeginStep, ConsumeAuthority, FirstPending, ResolveWith, Core, HandlerRequest;
    var request := HandlerRequest(plan, Live(Record(one, plan).objects), step).value;
    assert request.verb == Add && request.run == plan.request.run by { AddRequestShape(plan, Live(Record(one, plan).objects), step); }
    var r, s := Send(env, one, request), Send(CALM, two, request);
    SendKeepsRunning(env, one, plan, request);
    SendKeepsRunning(CALM, two, plan, request);
    SendFollows(env, one, two, request);
    ConsumeKeepsRunning(r.0.store, plan);
    var reply := s.1.reply;
    var used := if step == CampaignAdd then ConsumeAuthority(r.0.store, plan).0 else r.0.store;
    CompleteAddSame(r.0.(store := used), s.0.(store := used), plan, step, reply.created);
    assert r.0.(store := r.0.store) == r.0 && s.0.(store := s.0.store) == s.0;
    if r.1.OutcomeUnknown? {
      SentIsPending(env, one, plan, step, request);
      SendAnswersInKind(CALM, two, request);
      AddResolves(r.0, plan, step, reply);
    }
  }

  lemma AddRequestShape(plan: Plan, live: seq<Created>, step: Step)
    requires HandlerRequest(plan, live, step).Ok? && IsWrite(step)
    ensures var request := HandlerRequest(plan, live, step).value;
            && request.run == plan.request.run && request.verb != Get && (IsAdd(step) ==> request.verb == Add)
            && request.key == StepKey(plan.request.execution, step)
  {
    hide Live, OfService;
  }

  /** Resolving an add step does what the step itself does with an answer. */
  lemma AddResolves(sys: System, plan: Plan, step: Step, reply: Reply)
    requires Running(sys.store, plan) && IsAdd(step)
    requires step == CampaignAdd ==> ConsumeAuthority(sys.store, plan).1.Ok?
    ensures Running((if step == CampaignAdd then ConsumeAuthority(sys.store, plan).0 else sys.store), plan)
    ensures var used := if step == CampaignAdd then ConsumeAuthority(sys.store, plan).0 else sys.store;
            var completed := CompleteAdd(sys.(store := used), plan, step, reply.created);
            completed.1.Done? ==> ResolveWith(sys, plan, step, reply) == (completed.0, Resolved)
  {
    hide ConsumeAuthority, CompleteAdd;
    ConsumeKeepsRunning(sys.store, plan);
    assert sys.(store := sys.store) == sys;
  }

  /** The service's answer to an answered, lost or refused move request. */
  function MoveEnds(sent: (System, Outcome), plan: Plan, step: Step): (r: (System, StepOutcome))
    requires Running(sent.0.store, plan)
    ensures Running(r.0.store, plan)
  {
    hide CloseStep;
    if !sent.1.Answered? then (sent.0, Escalate(sent.1))
    else if step == ModerationSubmit then CloseStep(sent.0, plan, step, States(StatesOf(sent.1.reply.readback)))
    else if sent.1.reply.readback == [] || sent.1.reply.readback[0].item.state != On then
      (sent.0, Failure("CAMPAIGN_LAUNCH_READBACK_FAILED"))
    else CloseStep(sent.0, plan, step, States([On]))
  }

  predicate MoveGuard(sys: System, plan: Plan, step: Step, request: DirectRequest) {
    forall id <- IdsOf(request.payload) ::
      StateAllows(sys, plan.request.run, id, if step == ModerationSubmit then {Draft} else {Suspended})
  }

  lemma MoveStepIs(env: Env, sys: System, plan: Plan, step: Step, request: DirectRequest)
    requires Lossy(env) && Running(sys.store, plan) && step in {ModerationSubmit, CampaignLaunch}
    requires BeginStep(Record(sys, plan), step).Ok?
    requires HandlerRequest(plan, Live(Record(sys, plan).objects), step) == Ok(request)
    ensures Running(Send(env, sys, request).0.store, plan)
    ensures MoveGuard(sys, plan, step, request) ==> RunStep(env, sys, plan, step) == MoveEnds(Send(env, sys, request), plan, step)
    ensures !MoveGuard(sys, plan, step, request) ==> RunStep(env, sys, plan, step).1.Raised?
  {
    hide Send, Live, OfService, CloseStep, BeginStep, StateAllows, AllIn;
    SendKeepsRunning(env, sys, plan, request);
    var run := plan.request.run;
    if step == ModerationSubmit {
      assert MoveGuard(sys, plan, step, request) <==> forall id <- IdsOf(request.payload) :: StateAllows(sys, run, id, {Draft});
    } else {
      var id := request.payload.id;
      assert IdsOf(request.payload) == [id] && id in [id];
      assert MoveGuard(sys, plan, step, request) <==> forall other <- [id] :: StateAllows(sys, run, other, {Suspended});
      assert MoveGuard(sys, plan, step, request) <==> StateAllows(sys, run, id, {Suspended});
    }
  }

  lemma MoveEndsSame(one: (System, Outcome), two: (System, Outcome), plan: Plan, step: Step)
    requires Running(one.0.store, plan) && Same(one.0, two.0) && one.1 == two.1
    ensures MoveEnds(one, plan, step).1 == MoveEnds(two, plan, step).1
    ensures Same(MoveEnds(one, plan, step).0, MoveEnds(two, plan, step).0)
  {
    hide CloseStep;
    if one.1.Answered? {
      CloseSame(one.0, two.0, plan, step,
                if step == ModerationSubmit then States(StatesOf(one.1.reply.readback)) else States([On]));
    }
  }

  lemma MoveFollows(env: Env, one: System, two: System, plan: Plan, step: Step)
    requires Lossy(env) && Same(one, two) && Running(one.store, plan) && step in {ModerationSubmit, CampaignLaunch}
    requires ValidDraft(plan.request.draft) && StepKey(plan.request.execution, step) !in two.adapter.results
    requires BeginStep(Record(one, plan), step).Ok?
    requires RunStep(CALM, two, plan, step).1.Done?
    ensures Follows(env, RunStep(env, one, plan, step), RunStep(CALM, two, plan, step), one, plan, step)
  {
    hide Send, Live, OfService, CloseStep, BeginStep, FirstPending, ResolveWith, StateAllows, AllIn, HandlerRequest, RunStep, Core;
    var live := Live(Record(one, plan).objects);
    assert HandlerRequest(plan, live, step).Ok? by { DoneHasRequest(CALM, two, plan, step); }
    var request := HandlerRequest(plan, live, step).value;
    AddRequestShape(plan, live, step);
    var r, s := Send(env, one, request), Send(CALM, two, request);
    MoveStepIs(env, one, plan, step, request);
    MoveStepIs(CALM, two, plan, step, request);
    GuardSame(one, two, plan, step, request);
    SendFollows(env, one, two, request);
    if r.1 == s.1 {
      MoveEndsSame(r, s, plan, step);
    } else {
      SentIsPending(env, one, plan, step, request);
      SendAnswersInKind(CALM, two, request);
      HandlerRequestFits(plan, live, step);
      CalmReplyFits(two, plan, step, request);
      MoveEndsSame((r.0, s.1), s, plan, step);
      MoveResolves(r.0, plan, step, s.1.reply);
    }
  }

  lemma DoneHasRequest(env: Env, sys: System, plan: Plan, step: Step)
    requires Running(sys.store, plan) && step in {ModerationSubmit, CampaignLaunch} && RunStep(env, sys, plan, step).1.Done?
    ensures HandlerRequest(plan, Live(Record(sys, plan).objects), step).Ok?
  {
    hide Send, CloseStep, StateAllows;
  }

  lemma GuardSame(one: System, two: System, plan: Plan, step: Step, request: DirectRequest)
    requires Same(one, two)
    ensures MoveGuard(one, plan, step, request) == MoveGuard(two, plan, step, request)
  {
    hide Owned;
    assert one.adapter.objects == Core(two.adapter).objects == two.adapter.objects;
  }

  lemma CalmReplyFits(sys: System, plan: Plan, step: Step, request: DirectRequest)
    requires RequestFits(plan, step, request) && request.key !in sys.adapter.results
    requires Send(CALM, sys, request).1.Answered?
    ensures ReplyFits(Send(CALM, sys, request).1.reply, step)
  {
    hide Invoke, Claim, CancelClaim, Owned, RequestFits, ReplyFits;
    FirstCall(CALM.faults, sys.adapter, plan, step, request);
  }

  lemma MoveResolves(sys: System, plan: Plan, step: Step, reply: Reply)
    requires Running(sys.store, plan) && step in {ModerationSubmit, CampaignLaunch} && ReplyFits(reply, step)
    ensures var response := if step == ModerationSubmit then States(StatesOf(reply.readback)) else States([On]);
            var closed := CloseStep(sys, plan, step, response);
            closed.1.Done? ==> ResolveWith(sys, plan, step, reply) == (closed.0, Resolved)
  {
    hide CloseStep;
  }

  /** With nothing pending, reconciliation resolves at once and changes nothing. */
  lemma NothingToReconcile(sys: System, plan: Plan, step: Step)
    requires Running(sys.store, plan) && BeginStep(Record(sys, plan), step).Ok?
    ensures Reconcile(sys, plan) == (sys, Resolved)
  {
    hide ResolveWith, FirstPending;
  }

  lemma ModerationFollows(env: Env, one: System, two: System, plan: Plan)
    requires Lossy(env) && Same(one, two) && Running(one.store, plan)
    requires BeginStep(Record(one, plan), ModerationReadback).Ok?
    requires ModerationStep(CALM, two, plan).1.Done?
    ensures Follows(env, ModerationStep(env, one, plan), ModerationStep(CALM, two, plan), one, plan, ModerationReadback)
  {
    hide Read, Live, OfService, CloseStep, BeginStep, Reconcile, Core, AllIn;
    var run, ids := plan.request.run, LiveRefs(one, plan, Ads);
    ReadFollows(env, one, two, run, Ads, ids);
    var r, s := Read(env, one, run, Ads, ids), Read(CALM, two, run, Ads, ids);
    NothingToReconcile(r.0, plan, ModerationReadback);
    if s.1.Answered? {
      CloseSame(r.0, s.0, plan, ModerationReadback, States(StatesOf(s.1.reply.readback)));
    }
  }

  lemma FullFollows(env: Env, one: System, two: System, plan: Plan)
    requires Lossy(env) && Same(one, two) && Running(one.store, plan)
    requires BeginStep(Record(one, plan), FullReadback).Ok?
    requires FullReadbackStep(CALM, two, plan).1.Done?
    ensures Follows(env, FullReadbackStep(env, one, plan), FullReadbackStep(CALM, two, plan), one, plan, FullReadback)
  {
    hide Read, Live, OfService, CloseStep, BeginStep, Reconcile, ReadbackMatches, SeenRefs, Core;
    var run := plan.request.run;
    var ids1, ids2 := LiveRefs(one, plan, Campaigns), LiveRefs(one, plan, AdGroups);
    var ids3, ids4 := LiveRefs(one, plan, Ads), LiveRefs(one, plan, Keywords);
    var r1, s1 := Read(env, one, run, Campaigns, ids1), Read(CALM, two, run, Campaigns, ids1);
    ReadFollows(env, one, two, run, Campaigns, ids1);
    NothingToReconcile(r1.0, plan, FullReadback);
    if s1.1.Answered? && r1.1 == s1.1 {
      var r2, s2 := Read(env, r1.0, run, AdGroups, ids2), Read(CALM, s1.0, run, AdGroups, ids2);
      ReadFollows(env, r1.0, s1.0, run, AdGroups, ids2);
      NothingToReconcile(r2.0, plan, FullReadback);
      if s2.1.Answered? && r2.1 == s2.1 {
        var r3, s3 := Read(env, r2.0, run, Ads, ids3), Read(CALM, s2.0, run, Ads, ids3);
        ReadFollows(env, r2.0, s2.0, run, Ads, ids3);
        NothingToReconcile(r3.0, plan, FullReadback);
        if s3.1.Answered? && r3.1 == s3.1 {
          var r4, s4 := Read(env, r3.0, run, Keywords, ids4), Read(CALM, s3.0, run, Keywords, ids4);
          ReadFollows(env, r3.0, s3.0, run, Keywords, ids4);
          NothingToReconcile(r4.0, plan, FullReadback);
          if s4.1.Answered? && r4.1 == s4.1 {
            CloseSame(r4.0, s4.0, plan, FullReadback,
                      ReadbackIds(SeenRefs(s1.1.reply.readback), SeenRefs(s2.1.reply.readback),
                                  SeenRefs(s3.1.reply.readback), SeenRefs(s4.1.reply.readback)));
          }
        }
      }
    }
  }

  /** A lossy step follows the calm step that completes. */
  lemma StepFollows(env: Env, one: System, two: System, plan: Plan, step: Step)
    requires Lossy(env) && Same(one, two) && Running(one.store, plan)
    requires ValidDraft(plan.request.draft) && (IsWrite(step) ==> StepKey(plan.request.execution, step) !in two.adapter.results)
    requires RunStep(CALM, two, plan, step).1.Done?
    ensures Follows(env, RunStep(env, one, plan, step), RunStep(CALM, two, plan, step), one, plan, step)
  {
    hide AddStep, SubmitStep, LaunchStep, ModerationStep, FullReadbackStep, BeginStep, Follows, Core, ValidDraft;
    match step
    case ModerationSubmit => MoveFollows(env, one, two, plan, step);
    case CampaignLaunch => MoveFollows(env, one, two, plan, step);
    case ModerationReadback => ModerationFollows(env, one, two, plan);
    case FullReadback => FullFollows(env, one, two, plan);
    case _ => AddFollows(env, one, two, plan, step);
  }

  // ---------- between steps ----------

  /** The saga rests between two steps. */
  ghost predicate AtRest(sys: System, plan: Plan) {
    SystemOk(sys) && Running(sys.store, plan) && NothingPending(Record(sys, plan))
  }

  function StepsDone(sys: System, plan: Plan): nat
    requires Loaded(sys.store, plan)
  {
    |Record(sys, plan).steps|
  }

  lemma StepRests(env: Env, sys: System, plan: Plan, step: Step)
    requires AtRest(sys, plan) && Ordinal(step) == StepsDone(sys, plan)
    ensures var r := RunStep(env, sys, plan, step);
            && (r.1.Done? ==> AtRest(r.0, plan) && StepsDone(r.0, plan) == StepsDone(sys, plan) + 1)
            && (r.1.Unknown? && Reconcile(r.0, plan).1.Resolved? ==> AtRest(Reconcile(r.0, plan).0, plan))
  {
    hide SystemOk, RunEvents, RunStep, Reconcile, StartCompensation, AllOwned, Listed, Shaped, Lockstep, RowsKnown, Accounted,
         Truthful, RepliesFit;
    var c := Config(sys, Working(plan));
    var events := StepIsARun(env, c, plan, step);
    RunInv(c, events);
    StepAdvances(env, sys, plan, step);
    var r := RunStep(env, sys, plan, step);
    if r.1.Unknown? {
      var d := RunEvents(c, events);
      SagaParts(d.sys, plan);
      var more := ReconcileIsARun(d, plan, AfterUnknown);
      RunInv(d, more);
    }
  }

  lemma NotYetAnswered(sys: System, plan: Plan, step: Step)
    requires AtRest(sys, plan) && Ordinal(step) == StepsDone(sys, plan) && IsWrite(step)
    ensures StepKey(plan.request.execution, step) !in sys.adapter.results && ValidDraft(plan.request.draft)
  {
    hide SystemOk, Shaped, Lockstep, RowsKnown, Accounted, Truthful, RepliesFit, Times, Keyed, GrantsBound, Numbered, NothingPending;
    SystemParts(sys);
    SagaParts(sys, plan);
    NeverSent(sys, plan, step);
    SentMeansCalled(sys, StepKey(plan.request.execution, step));
  }

  lemma DraftOf(sys: System, plan: Plan)
    requires AtRest(sys, plan)
    ensures ValidDraft(plan.request.draft)
  {
    hide SystemOk, Shaped, Lockstep, RowsKnown, Accounted, Truthful, RepliesFit, NothingPending;
    SagaParts(sys, plan);
  }

  /** One lossy step from rest follows the calm step that completes. */
  lemma RestFollows(env: Env, one: System, two: System, plan: Plan, step: Step)
    requires Lossy(env) && Same(one, two) && AtRest(two, plan) && Ordinal(step) == StepsDone(two, plan)
    requires RunStep(CALM, two, plan, step).1.Done?
    ensures Follows(env, RunStep(env, one, plan, step), RunStep(CALM, two, plan, step), one, plan, step)
  {
    hide SystemOk, RunStep, Follows, ValidDraft, NothingPending, Core;
    DraftOf(two, plan);
    if IsWrite(step) {
      NotYetAnswered(two, plan, step);
    }
    StepFollows(env, one, two, plan, step);
  }

  /** The uninterrupted fault-free run of the remaining steps. */
  function CalmRun(sys: System, plan: Plan): (System, StepOutcome)
    requires Running(sys.store, plan)
  {
    RunSteps(CALM, sys, plan, StepsDone(sys, plan), None)
  }

  /** At rest, and the uninterrupted fault-free run from here completes every step. */
  ghost predicate OnTrack(sys: System, plan: Plan) {
    AtRest(sys, plan) && CalmRun(sys, plan).1.Done?
  }

  lemma CalmUnfolds(sys: System, plan: Plan)
    requires OnTrack(sys, plan)
    ensures StepsDone(sys, plan) <= |SAGA_STEPS|
    ensures StepsDone(sys, plan) < |SAGA_STEPS| ==>
              var r := RunStep(CALM, sys, plan, SAGA_STEPS[StepsDone(sys, plan)]);
              r.1.Done? && OnTrack(r.0, plan) && CalmRun(r.0, plan) == CalmRun(sys, plan)
              && StepsDone(r.0, plan) == StepsDone(sys, plan) + 1
    ensures StepsDone(sys, plan) == |SAGA_STEPS| ==> CalmRun(sys, plan) == (sys, Done)
  {
    hide SystemOk, RunStep, NothingPending, Shaped, Lockstep, RowsKnown, Accounted, Truthful, RepliesFit;
    var n := StepsDone(sys, plan);
    SagaParts(sys, plan);
    ShapedSteps(Record(sys, plan));
    if n < |SAGA_STEPS| {
      OrdinalOf(n);
      StepRests(CALM, sys, plan, SAGA_STEPS[n]);
    }
  }

  lemma ShapedSteps(record: SagaRecord)
    requires Shaped(record)
    ensures |record.steps| <= |SAGA_STEPS|
  {
  }

  /** Systems that agree up to the call log have calm runs that agree up to the call log. */
  lemma {:induction false} CalmAgrees(one: System, two: System, plan: Plan)
    requires Same(one, two) && AtRest(one, plan) && OnTrack(two, plan)
    ensures OnTrack(one, plan) && Same(CalmRun(one, plan).0, CalmRun(two, plan).0)
    decreases |SAGA_STEPS| - StepsDone(two, plan)
  {
    hide SystemOk, RunStep, NothingPending, Core, Reconcile;
    CalmUnfolds(two, plan);
    var n := StepsDone(two, plan);
    if n < |SAGA_STEPS| {
      OrdinalOf(n);
      RestFollows(CALM, one, two, plan, SAGA_STEPS[n]);
      StepRests(CALM, one, plan, SAGA_STEPS[n]);
      CalmAgrees(RunStep(CALM, one, plan, SAGA_STEPS[n]).0, RunStep(CALM, two, plan, SAGA_STEPS[n]).0, plan);
    }
  }

  /** The saga is still on the way to the same end. */
  ghost predicate Tracks(sys: System, target: System, plan: Plan) {
    OnTrack(sys, plan) && Same(CalmRun(sys, plan).0, target)
  }

  lemma TracksSame(one: System, two: System, target: System, plan: Plan)
    requires Same(one, two) && AtRest(one, plan) && Tracks(two, target, plan)
    ensures Tracks(one, target, plan)
  {
    hide AtRest, CalmRun, Core;
    CalmAgrees(one, two, plan);
  }

  // ---------- how much of the way is left ----------

  /** The four reads a saga makes; a write whose response was lost is recovered, a lost read is made again. */
  function ReadKeys(sys: System, plan: Plan): set<OpKey> {
    if !Loaded(sys.store, plan) then {}
    else
      {ReadKey(sys, plan, Campaigns), ReadKey(sys, plan, AdGroups), ReadKey(sys, plan, Ads), ReadKey(sys, plan, Keywords)}
  }

  function ReadKey(sys: System, plan: Plan, service: Service): OpKey
    requires Loaded(sys.store, plan)
  {
    ReadRequest(plan.request.run, service, LiveRefs(sys, plan, service)).key
  }

  /** The steps still to be completed and the reads whose response can still be lost. */
  function Distance(sys: System, target: System, plan: Plan): int
    requires Loaded(sys.store, plan)
  {
    |SAGA_STEPS| - StepsDone(sys, plan) + |ReadKeys(target, plan) - sys.adapter.timedOut|
  }

  lemma FewReads(sys: System, plan: Plan)
    ensures |ReadKeys(sys, plan)| <= 4
  {
    hide LiveRefs;
  }

  lemma {:induction false} FewerLeft<T>(all: set<T>, some: set<T>, more: set<T>)
    requires some <= more
    ensures |all - more| <= |all - some|
    ensures (exists x :: x in all && x in more && x !in some) ==> |all - more| < |all - some|
  {
    SubsetSize(all - more, all - some);
    if x :| x in all && x in more && x !in some {
      assert x in all - some && x !in all - more;
    }
  }

  lemma {:induction false} SubsetSize<T>(small: set<T>, large: set<T>)
    requires small <= large
    ensures |small| <= |large|
    ensures small != large ==> |small| < |large|
  {
    if small != {} {
      var x :| x in small;
      SubsetSize(small - {x}, large - {x});
    }
  }

  // ---------- steps that create nothing keep the created objects ----------

  lemma SendKeepsObjects(env: Env, sys: System, plan: Plan, request: DirectRequest)
    requires Running(sys.store, plan) && request.run == plan.request.run
    ensures Running(Send(env, sys, request).0.store, plan)
    ensures Record(Send(env, sys, request).0, plan).objects == Record(sys, plan).objects
  {
    hide Invoke, Claim, CancelClaim, Owned, Loaded;
    var claimed := Claim(sys.store, request, request.key !in env.closed);
    ClaimKeepsSteps(sys.store, plan, request, request.key !in env.closed);
    ClaimKeepsObjects(sys.store, plan, request, request.key !in env.closed);
    CancelKeepsSteps(claimed.0, plan, request);
    CancelKeepsObjects(claimed.0, plan, request);
  }

  lemma ClaimKeepsObjects(st: Store, plan: Plan, request: DirectRequest, gateOpen: bool)
    requires Running(st, plan) && request.run == plan.request.run && Running(Claim(st, request, gateOpen).0, plan)
    ensures Claim(st, request, gateOpen).0.sagas[plan.request.execution].objects == st.sagas[plan.request.execution].objects
  {
    hide ExpectedRequest, FirstPending;
  }

  lemma CancelKeepsObjects(st: Store, plan: Plan, request: DirectRequest)
    requires Running(st, plan) && request.run == plan.request.run && Running(CancelClaim(st, request), plan)
    ensures CancelClaim(st, request).sagas[plan.request.execution].objects == st.sagas[plan.request.execution].objects
  {
    hide WithoutClaim;
  }

  lemma CloseKeepsObjects(sys: System, plan: Plan, step: Step, response: Response)
    requires Running(sys.store, plan)
    ensures Record(CloseStep(sys, plan, step, response).0, plan).objects == Record(sys, plan).objects
  {
    hide CloseDispatch, IsPending, HasStep;
  }

  lemma StepKeepsObjects(env: Env, sys: System, plan: Plan, step: Step)
    requires Running(sys.store, plan) && !IsAdd(step)
    ensures Record(RunStep(env, sys, plan, step).0, plan).objects == Record(sys, plan).objects
  {
    hide SubmitStep, LaunchStep, ModerationStep, FullReadbackStep, AddStep, BeginStep;
    match step
    case ModerationSubmit => MoveKeepsObjects(env, sys, plan, step);
    case CampaignLaunch => MoveKeepsObjects(env, sys, plan, step);
    case _ => ReadKeepsObjects(env, sys, plan, step);
  }

  lemma MoveKeepsObjects(env: Env, sys: System, plan: Plan, step: Step)
    requires Running(sys.store, plan) && step in {ModerationSubmit, CampaignLaunch}
    ensures var r := if step == ModerationSubmit then SubmitStep(env, sys, plan) else LaunchStep(env, sys, plan);
            Record(r.0, plan).objects == Record(sys, plan).objects
  {
    hide Send, CloseStep, Live, OfService, StateAllows, AllIn, StatesOf;
    var request := HandlerRequest(plan, Live(Record(sys, plan).objects), step);
    if request.Ok? {
      SendKeepsObjects(env, sys, plan, request.value);
      var sent := Send(env, sys, request.value);
      if sent.1.Answered? {
        CloseKeepsObjects(sent.0, plan, step, if step == ModerationSubmit then States(StatesOf(sent.1.reply.readback)) else States([On]));
      }
    }
  }

  lemma ReadKeepsObjects(env: Env, sys: System, plan: Plan, step: Step)
    requires Running(sys.store, plan) && !IsWrite(step)
    ensures var r := if step == ModerationReadback then ModerationStep(env, sys, plan) else FullReadbackStep(env, sys, plan);
            Record(r.0, plan).objects == Record(sys, plan).objects
  {
    hide Invoke, Live, OfService, StateAllows, AllIn, StatesOf, SeenRefs, ReadbackMatches, Owned, CloseDispatch, IsPending, HasStep;
  }

  /** After the add steps the reads are settled: they are those of the end. */
  lemma {:induction false} ReadsSettled(sys: System, target: System, plan: Plan)
    requires Tracks(sys, target, plan) && StepsDone(sys, plan) >= Ordinal(ModerationSubmit)
    ensures ReadKeys(sys, plan) == ReadKeys(target, plan)
    decreases |SAGA_STEPS| - StepsDone(sys, plan)
  {
    hide AtRest, RunStep, CalmRun, ReadKey, StepsDone;
    TrackRuns(sys, plan);
    CalmUnfolds(sys, plan);
    var n := StepsDone(sys, plan);
    if n < |SAGA_STEPS| {
      OrdinalOf(n);
      var step := SAGA_STEPS[n];
      StepKeepsObjects(CALM, sys, plan, step);
      ReadsSettled(RunStep(CALM, sys, plan, step).0, target, plan);
      SameObjectsRead(sys, RunStep(CALM, sys, plan, step).0, plan);
    } else {
      SameObjectsRead(sys, target, plan);
    }
  }

  lemma SameObjectsRead(one: System, two: System, plan: Plan)
    requires Loaded(one.store, plan) && Loaded(two.store, plan) && Record(one, plan).objects == Record(two, plan).objects
    ensures ReadKeys(one, plan) == ReadKeys(two, plan)
  {
    hide Live, OfService;
  }

  // ---------- a lost read is one of the four ----------

  /** A read whose response was lost is one of the saga's own, and it is never lost again. */
  ghost predicate LosesRead(sys: System, later: System, plan: Plan) {
    exists key :: key in ReadKeys(sys, plan) && key in later.adapter.timedOut && key !in sys.adapter.timedOut
  }

  lemma ReadLosesKey(env: Env, sys: System, plan: Plan, service: Service)
    requires Loaded(sys.store, plan)
    ensures var r := Read(env, sys, plan.request.run, service, LiveRefs(sys, plan, service));
            && sys.adapter.timedOut <= r.0.adapter.timedOut && r.0.store == sys.store
            && (r.1.OutcomeUnknown? ==> ReadKey(sys, plan, service) in r.0.adapter.timedOut
                                        && ReadKey(sys, plan, service) !in sys.adapter.timedOut)
  {
    hide AddAll, MoveAll, ReadAll, NewContents, NewType, NewState, LiveRefs, Owned;
  }

  lemma ReadStepLosesRead(env: Env, sys: System, plan: Plan, step: Step)
    requires Running(sys.store, plan) && !IsWrite(step) && RunStep(env, sys, plan, step).1.Unknown?
    ensures LosesRead(sys, RunStep(env, sys, plan, step).0, plan)
  {
    hide Read, LiveRefs, Complete, ReadbackMatches, AllIn, StatesOf, SeenRefs, BeginStep, ReadKey;
    var run := plan.request.run;
    if step == ModerationReadback {
      ReadLosesKey(env, sys, plan, Ads);
    } else {
      ReadLosesKey(env, sys, plan, Campaigns);
      var campaigns := Read(env, sys, run, Campaigns, LiveRefs(sys, plan, Campaigns)).0;
      SameObjectsRead(sys, campaigns, plan);
      SameLive(sys, campaigns, plan);
      ReadLosesKey(env, campaigns, plan, AdGroups);
      var groups := Read(env, campaigns, run, AdGroups, LiveRefs(sys, plan, AdGroups)).0;
      SameLive(sys, groups, plan);
      ReadLosesKey(env, groups, plan, Ads);
      var ads := Read(env, groups, run, Ads, LiveRefs(sys, plan, Ads)).0;
      SameLive(sys, ads, plan);
      ReadLosesKey(env, ads, plan, Keywords);
    }
  }

  lemma SameLive(one: System, two: System, plan: Plan)
    requires Loaded(one.store, plan) && two.store == one.store
    ensures forall service :: LiveRefs(two, plan, service) == LiveRefs(one, plan, service)
    ensures forall service :: ReadKey(two, plan, service) == ReadKey(one, plan, service)
  {
    hide Live, OfService;
  }

  // ---------- lossy steps ----------

  /** What a lossy step, or the reconciliation of its lost response, has gained. */
  ghost predicate Gains(sys: System, later: System, plan: Plan)
    requires Loaded(sys.store, plan) && Loaded(later.store, plan)
  {
    && sys.adapter.timedOut <= later.adapter.timedOut
    && (StepsDone(later, plan) == StepsDone(sys, plan) + 1
        || (StepsDone(later, plan) == StepsDone(sys, plan) >= Ordinal(ModerationSubmit) && LosesRead(sys, later, plan)))
  }

  /** A lossy step, or the reconciliation of its lost response, stays on the way to the same end. */
  lemma LossyStep(env: Env, sys: System, target: System, plan: Plan)
    requires Lossy(env) && Tracks(sys, target, plan) && StepsDone(sys, plan) < |SAGA_STEPS|
    ensures var r := RunStep(env, sys, plan, SAGA_STEPS[StepsDone(sys, plan)]);
            || (r.1.Done? && Tracks(r.0, target, plan) && StepsDone(r.0, plan) == StepsDone(sys, plan) + 1
                && sys.adapter.timedOut <= r.0.adapter.timedOut)
            || (r.1.Unknown? && env.faults.lose != {} && Reconcile(r.0, plan).1.Resolved?
                && Tracks(Reconcile(r.0, plan).0, target, plan) && Gains(sys, Reconcile(r.0, plan).0, plan))
  {
    hide SystemOk, RunStep, NothingPending, Reconcile, CalmRun, Core, Shaped, StepsDone, Gains;
    var step := SAGA_STEPS[StepsDone(sys, plan)];
    OrdinalOf(StepsDone(sys, plan));
    CalmUnfolds(sys, plan);
    RestFollows(env, sys, sys, plan, step);
    StepRests(env, sys, plan, step);
    StepLoses(env, sys, plan, step);
    var r, s := RunStep(env, sys, plan, step), RunStep(CALM, sys, plan, step);
    if r.1.Done? {
      TracksSame(r.0, s.0, target, plan);
    } else {
      var later := Reconcile(r.0, plan).0;
      ReconcileKeepsAdapter(r.0, plan);
      if Same(later, s.0) {
        TracksSame(later, s.0, target, plan);
        GainsStep(sys, s.0, later, plan);
      } else {
        TracksSame(later, sys, target, plan);
        ReadStepLosesRead(env, sys, plan, step);
        GainsRead(sys, r.0, later, plan, step);
      }
    }
  }

  lemma GainsStep(sys: System, next: System, later: System, plan: Plan)
    requires Loaded(sys.store, plan) && Loaded(later.store, plan) && Loaded(next.store, plan)
    requires Same(later, next) && StepsDone(next, plan) == StepsDone(sys, plan) + 1
    requires sys.adapter.timedOut <= later.adapter.timedOut
    ensures Gains(sys, later, plan)
  {
    hide Core;
  }

  lemma GainsRead(sys: System, lost: System, later: System, plan: Plan, step: Step)
    requires Loaded(sys.store, plan) && Loaded(later.store, plan) && Same(later, sys) && LosesRead(sys, lost, plan)
    requires later.adapter == lost.adapter && sys.adapter.timedOut <= later.adapter.timedOut
    requires !IsWrite(step) && Ordinal(step) == StepsDone(sys, plan)
    ensures Gains(sys, later, plan)
  {
    hide Core, ReadKeys;
  }

  function Minimum(a: nat, b: nat): nat {
    if a <= b then a else b
  }

  lemma {:induction false} LossySteps(env: Env, sys: System, target: System, plan: Plan, left: Option<nat>)
    requires Lossy(env) && Tracks(sys, target, plan)
    ensures var n := StepsDone(sys, plan);
            var r := RunSteps(env, sys, plan, n, left);
            || (r.1.Done? && Tracks(r.0, target, plan) && sys.adapter.timedOut <= r.0.adapter.timedOut
                && StepsDone(r.0, plan) == if left.Some? then Minimum(n + left.value, |SAGA_STEPS|) else |SAGA_STEPS|)
            || (r.1.Unknown? && env.faults.lose != {} && Reconcile(r.0, plan).1.Resolved?
                && Tracks(Reconcile(r.0, plan).0, target, plan)
                && Distance(Reconcile(r.0, plan).0, target, plan) < Distance(sys, target, plan))
    decreases |SAGA_STEPS| - StepsDone(sys, plan)
  {
    hide AtRest, RunStep, Reconcile, CalmRun, Core, StepsDone, Same, Gains, Distance;
    TrackRuns(sys, plan);
    var n := StepsDone(sys, plan);
    CalmUnfolds(sys, plan);
    if n < |SAGA_STEPS| && left != Some(0) {
      LossyStep(env, sys, target, plan);
      var r := RunStep(env, sys, plan, SAGA_STEPS[n]);
      if r.1.Done? {
        LossySteps(env, r.0, target, plan, if left.Some? then Some(left.value - 1) else None);
        StepsDoneIs(sys, plan);
        Nearer(sys, r.0, target, plan);
      } else {
        GainsDistance(sys, Reconcile(r.0, plan).0, target, plan);
      }
    }
  }

  /** More completed steps and no response to be lost again: less is left. */
  lemma Nearer(sys: System, later: System, target: System, plan: Plan)
    requires Loaded(sys.store, plan) && Loaded(later.store, plan)
    requires StepsDone(later, plan) > StepsDone(sys, plan) && sys.adapter.timedOut <= later.adapter.timedOut
    ensures Distance(later, target, plan) < Distance(sys, target, plan)
  {
    hide StepsDone, ReadKeys;
    FewerLeft(ReadKeys(target, plan), sys.adapter.timedOut, later.adapter.timedOut);
  }

  lemma GainsDistance(sys: System, later: System, target: System, plan: Plan)
    requires Tracks(sys, target, plan) && Loaded(sys.store, plan) && Loaded(later.store, plan) && Gains(sys, later, plan)
    ensures Distance(later, target, plan) < Distance(sys, target, plan)
  {
    hide StepsDone, Tracks, ReadKeys;
    if StepsDone(later, plan) > StepsDone(sys, plan) {
      Nearer(sys, later, target, plan);
    } else {
      ReadsSettled(sys, target, plan);
      FewerLeft(ReadKeys(target, plan), sys.adapter.timedOut, later.adapter.timedOut);
    }
  }

  lemma TrackRuns(sys: System, plan: Plan)
    requires OnTrack(sys, plan)
    ensures Running(sys.store, plan)
  {
    hide SystemOk, RunSteps;
  }

  // ---------- execute ----------

  /** The calm run's end, closed as applied. */
  ghost predicate Arrived(sys: System, target: System, plan: Plan) {
    Loaded(target.store, plan) && Same(sys, Settle(target, plan, Applied, ""))
  }

  lemma FinishTracks(sys: System, target: System, plan: Plan)
    requires Tracks(sys, target, plan)
    ensures var r := FinishIfComplete(sys, plan);
            && r.1 == Returned(false) && r.0.adapter == sys.adapter
            && (if StepsDone(sys, plan) == |SAGA_STEPS| then Arrived(r.0, target, plan) else r.0 == sys)
  {
    hide AtRest, Core;
    CalmUnfolds(sys, plan);
    TrackRuns(sys, plan);
    hide CalmRun, OnTrack;
  }

  /** A call that did not arrive had a budget and used it up, or lost a response; either way less is left. */
  ghost predicate Advanced(env: Env, sys: System, later: System, target: System, plan: Plan, maxSteps: Option<int>)
    requires Running(sys.store, plan)
  {
    && maxSteps.Some? && Tracks(later, target, plan) && StepsDone(later, plan) < |SAGA_STEPS|
    && (StepsDone(later, plan) == StepsDone(sys, plan) + maxSteps.value || env.faults.lose != {})
    && Distance(later, target, plan) < Distance(sys, target, plan)
  }

  /** A call that arrived had no budget, or enough of it, unless responses were lost. */
  ghost predicate Reaches(env: Env, sys: System, later: System, target: System, plan: Plan, maxSteps: Option<int>)
    requires Running(sys.store, plan)
  {
    && Arrived(later, target, plan)
    && (maxSteps.Some? && env.faults.lose == {} ==> StepsDone(sys, plan) + maxSteps.value >= |SAGA_STEPS|)
  }

  /** One call of `execute` from a resting saga arrives, or it returns on track and further than before. */
  lemma {:induction false} ContinueTracks(env: Env, sys: System, target: System, plan: Plan, now: int, approver: Principal, maxSteps: Option<int>)
    requires Lossy(env) && Tracks(sys, target, plan) && (maxSteps.Some? ==> maxSteps.value >= 1)
    ensures Running(sys.store, plan)
    ensures var r := Continue(env, sys, plan, now, approver, maxSteps);
            r.1 == Returned(false)
            && (Reaches(env, sys, r.0, target, plan, maxSteps) || Advanced(env, sys, r.0, target, plan, maxSteps))
    decreases LossesLeft(env, sys), 0
  {
    hide AtRest, RunSteps, Reconcile, CalmRun, Core, StepsDone, Same, Arrived, FinishIfComplete, OnTrack, Execute, FinishAfterFailure,
         Settle, Tracks, Lossy, Loaded, Running, Distance;
    TracksMean(sys, target, plan);
    TrackRuns(sys, plan);
    RestReconciles(sys, plan);
    LossySteps(env, sys, target, plan, Budget(maxSteps));
    RunningLoads(sys.store, plan);
    var ran := RunSteps(env, sys, plan, StepsDone(sys, plan), Budget(maxSteps));
    StepsDoneIs(sys, plan);
    if ran.1.Done? {
      FinishTracks(ran.0, target, plan);
      RunningLoads(ran.0.store, plan);
      if StepsDone(ran.0, plan) < |SAGA_STEPS| {
        Nearer(sys, ran.0, target, plan);
      }
    } else {
      RetryConsumesLoss(env, sys, plan, Budget(maxSteps));
      var second := Reconcile(ran.0, plan).0;
      TracksMean(second, target, plan);
      CalmUnfolds(second, plan);
      if maxSteps.Some? {
        FinishTracks(second, target, plan);
      } else {
        ExecuteTracks(env, second, target, plan, now, approver, None);
      }
    }
  }

  lemma StepsDoneIs(sys: System, plan: Plan)
    requires Loaded(sys.store, plan)
    ensures StepsDone(sys, plan) == |Record(sys, plan).steps|
  {
  }

  lemma RunningLoads(st: Store, plan: Plan)
    requires Running(st, plan)
    ensures Loaded(st, plan)
  {
  }

  lemma TracksMean(sys: System, target: System, plan: Plan)
    requires Tracks(sys, target, plan)
    ensures OnTrack(sys, plan)
  {
    hide OnTrack, CalmRun, Same;
  }

  lemma RestReconciles(sys: System, plan: Plan)
    requires OnTrack(sys, plan)
    ensures Running(sys.store, plan) && Reconcile(sys, plan) == (sys, Resolved)
  {
    hide SystemOk, CalmRun, ResolveWith, FirstPending, Shaped, Lockstep, RowsKnown, Accounted, Truthful, RepliesFit;
    SagaParts(sys, plan);
    PendingFirst(Record(sys, plan));
  }

  lemma {:induction false} ExecuteTracks(env: Env, sys: System, target: System, plan: Plan, now: int, approver: Principal, maxSteps: Option<int>)
    requires Lossy(env) && Tracks(sys, target, plan) && (maxSteps.Some? ==> maxSteps.value >= 1)
    ensures KeyedFor(sys.store, plan)
    ensures var r := Execute(env, sys, plan, now, approver, maxSteps);
            r.1 == Returned(false)
            && (Reaches(env, sys, r.0, target, plan, maxSteps) || Advanced(env, sys, r.0, target, plan, maxSteps))
    decreases LossesLeft(env, sys), 1
  {
    hide AtRest, CalmRun, Core, StepsDone, Same, Arrived, Continue, OnTrack, Advanced, Reaches, StartOrLoad, ValidDraft;
    TrackStarts(sys, plan, now, approver);
    ContinueTracks(env, sys, target, plan, now, approver, maxSteps);
    assert sys.(store := sys.store) == sys;
  }

  lemma TrackStarts(sys: System, plan: Plan, now: int, approver: Principal)
    requires OnTrack(sys, plan)
    ensures Running(sys.store, plan) && KeyedFor(sys.store, plan) && ValidDraft(plan.request.draft)
    ensures StartOrLoad(sys.store, plan, now, approver) == (sys.store, Ok(InFlight))
  {
    hide SystemOk, CalmRun;
    DraftOf(sys, plan);
  }
}
