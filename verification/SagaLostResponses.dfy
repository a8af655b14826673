/** A new saga served by any sequence of calls that lose responses or stop after a few steps ends as the calm run. */
module SagaLostResponses {
  import opened Basics
  import opened CampaignTypes
  import opened SagaStore
  import opened SagaService
  import opened SagaInvariant
  import opened SagaRuns
  import opened SagaRefinement
  import opened SagaTracks
  import opened SagaCalm

  datatype Call = Call(env: Env, now: int, approver: Principal, maxSteps: Option<int>)

  /** One `execute` after the other, each in its own environment. */
  ghost function Serve(sys: System, plan: Plan, calls: seq<Call>): (r: System)
    requires SystemOk(sys)
    ensures SystemOk(r)
    decreases |calls|
  {
    hide Execute, SystemOk, KeyedFor;
    if calls == [] then sys
    else
      var call := calls[0];
      ExecuteKeeps(call.env, sys, plan, call.now, call.approver, call.maxSteps);
      Serve(Execute(call.env, sys, plan, call.now, call.approver, call.maxSteps).0, plan, calls[1..])
  }

  predicate Allowed(call: Call) {
    Lossy(call.env) && (call.maxSteps.Some? ==> call.maxSteps.value >= 1)
  }

  /** Once arrived, further calls change nothing. */
  lemma {:induction false} ArrivedStays(env: Env, sys: System, target: System, plan: Plan, now: int, approver: Principal, maxSteps: Option<int>)
    requires SystemOk(sys) && Arrived(sys, target, plan) && ValidDraft(plan.request.draft)
    ensures KeyedFor(sys.store, plan)
    ensures Execute(env, sys, plan, now, approver, maxSteps) == (sys, Returned(true))
  {
    hide SystemOk, ValidDraft, Continue;
    LoadedIfKeyed(sys, plan);
  }

  lemma {:induction false} ServedFromThere(sys: System, target: System, plan: Plan, calls: seq<Call>)
    requires SystemOk(sys) && ValidDraft(plan.request.draft) && Arrived(sys, target, plan)
    ensures Serve(sys, plan, calls) == sys
    decreases |calls|
  {
    hide Execute, SystemOk, ValidDraft, Arrived, KeyedFor;
    if calls != [] {
      var call := calls[0];
      ArrivedStays(call.env, sys, target, plan, call.now, call.approver, call.maxSteps);
      ServedFromThere(sys, target, plan, calls[1..]);
    }
  }

  /**
   * From a saga on track, any allowed calls end at the calm run's end or still on the way. A call without a budget
   * arrives, and so do enough calls: every one that does not arrive completes a step or loses one of the four reads.
   */
  lemma {:induction false} ServedTracks(sys: System, target: System, plan: Plan, calls: seq<Call>)
    requires SystemOk(sys) && ValidDraft(plan.request.draft) && Tracks(sys, target, plan)
    requires forall call <- calls :: Allowed(call)
    ensures Loaded(sys.store, plan)
    ensures var last := Serve(sys, plan, calls);
            || Arrived(last, target, plan)
            || (Tracks(last, target, plan) && Loaded(last.store, plan) && (forall call <- calls :: call.maxSteps.Some?)
                && Distance(last, target, plan) + |calls| <= Distance(sys, target, plan)
                && (calls != [] ==> StepsDone(last, plan) < |SAGA_STEPS|))
    decreases |calls|
  {
    hide Execute, SystemOk, ValidDraft, Arrived, Tracks, KeyedFor, Advanced, Reaches, Lossy, Distance, StepsDone;
    TrackIsLoaded(sys, target, plan);
    if calls != [] {
      var call := calls[0];
      assert Allowed(call);
      var next := NextCall(sys, target, plan, call);
      if Arrived(next, target, plan) {
        ServedFromThere(next, target, plan, calls[1..]);
      } else {
        assert forall other :: other in calls[1..] ==> other in calls;
        ServedTracks(next, target, plan, calls[1..]);
        assert calls == [call] + calls[1..];
      }
    }
  }

  lemma TrackIsLoaded(sys: System, target: System, plan: Plan)
    requires Tracks(sys, target, plan)
    ensures Loaded(sys.store, plan) && Running(sys.store, plan)
  {
    hide CalmRun, Same;
    TrackRuns(sys, plan);
  }

  /** One call from a saga on track. */
  lemma NextCall(sys: System, target: System, plan: Plan, call: Call) returns (next: System)
    requires SystemOk(sys) && Tracks(sys, target, plan) && Allowed(call)
    ensures KeyedFor(sys.store, plan) && SystemOk(next) && Running(sys.store, plan)
    ensures next == Execute(call.env, sys, plan, call.now, call.approver, call.maxSteps).0
    ensures Ends(call, sys, next, target, plan)
  {
    hide Execute, SystemOk, Tracks, KeyedFor, StepsDone, Distance, Arrived, Ends;
    ExecuteKeeps(call.env, sys, plan, call.now, call.approver, call.maxSteps);
    ExecuteTracks(call.env, sys, target, plan, call.now, call.approver, call.maxSteps);
    next := Execute(call.env, sys, plan, call.now, call.approver, call.maxSteps).0;
    TrackIsLoaded(sys, target, plan);
    CallEnds(call, sys, next, target, plan);
  }

  /** A call arrives, or it stays on track with less left; without losses its budget says which, and how far it got. */
  ghost predicate Ends(call: Call, sys: System, next: System, target: System, plan: Plan)
    requires Running(sys.store, plan)
  {
    && (Arrived(next, target, plan)
        || (Tracks(next, target, plan) && Loaded(next.store, plan) && call.maxSteps.Some?
            && StepsDone(next, plan) < |SAGA_STEPS| && Distance(next, target, plan) < Distance(sys, target, plan)))
    && (Calm(call) ==>
          if StepsDone(sys, plan) + call.maxSteps.value >= |SAGA_STEPS| then Arrived(next, target, plan)
          else Tracks(next, target, plan) && Loaded(next.store, plan)
               && StepsDone(next, plan) == StepsDone(sys, plan) + call.maxSteps.value)
  }

  lemma CallEnds(call: Call, sys: System, next: System, target: System, plan: Plan)
    requires Allowed(call) && Running(sys.store, plan)
    requires Reaches(call.env, sys, next, target, plan, call.maxSteps)
             || Advanced(call.env, sys, next, target, plan, call.maxSteps)
    ensures Ends(call, sys, next, target, plan)
  {
    hide Tracks, StepsDone, Distance, Arrived;
    if Advanced(call.env, sys, next, target, plan, call.maxSteps) {
      TrackIsLoaded(next, target, plan);
    }
  }

  /** The steps a sequence of budgeted calls may make. */
  function Budgets(calls: seq<Call>): int {
    if calls == [] then 0 else (if calls[0].maxSteps.Some? then calls[0].maxSteps.value else 0) + Budgets(calls[1..])
  }

  predicate Calm(call: Call) {
    call.env.faults.lose == {} && call.maxSteps.Some?
  }

  /** Without faults the budgets add up: the saga arrives exactly when they cover the steps that are left. */
  lemma {:induction false} ChunksAdd(sys: System, target: System, plan: Plan, calls: seq<Call>)
    requires SystemOk(sys) && ValidDraft(plan.request.draft) && Tracks(sys, target, plan)
    requires forall call <- calls :: Allowed(call) && Calm(call)
    requires Loaded(sys.store, plan) && StepsDone(sys, plan) < |SAGA_STEPS|
    ensures var last := Serve(sys, plan, calls);
            if StepsDone(sys, plan) + Budgets(calls) >= |SAGA_STEPS| then Arrived(last, target, plan)
            else Tracks(last, target, plan) && Loaded(last.store, plan)
                 && StepsDone(last, plan) == StepsDone(sys, plan) + Budgets(calls)
    decreases |calls|
  {
    hide Execute, SystemOk, ValidDraft, Arrived, Tracks, KeyedFor, Advanced, Lossy, StepsDone, Distance;
    if calls != [] {
      var call := calls[0];
      assert Allowed(call) && Calm(call);
      var next := NextCall(sys, target, plan, call);
      assert forall other :: other in calls[1..] ==> other in calls;
      BudgetsArePositive(calls[1..]);
      if StepsDone(sys, plan) + call.maxSteps.value >= |SAGA_STEPS| {
        ServedFromThere(next, target, plan, calls[1..]);
      } else {
        ChunksAdd(next, target, plan, calls[1..]);
      }
    }
  }

  lemma {:induction false} BudgetsArePositive(calls: seq<Call>)
    requires forall call <- calls :: Allowed(call)
    ensures Budgets(calls) >= 0
  {
    if calls != [] {
      assert Allowed(calls[0]);
      assert forall other :: other in calls[1..] ==> other in calls;
      BudgetsArePositive(calls[1..]);
    }
  }

  // ---------- from the start ----------

  const ANY_REFS := Refs(ObjectRef(Campaigns, 0), ObjectRef(AdGroups, 0), ObjectRef(Ads, 0), ObjectRef(Ads, 1), ObjectRef(Keywords, 0))

  lemma NewSagaIsHealthy(sys: System, plan: Plan)
    requires SystemOk(sys) && Starts(sys.store, plan) && ValidDraft(plan.request.draft)
    ensures Healthy(sys.(store := Started(sys.store, plan)), plan, ANY_REFS, 0)
  {
    hide SystemOk, ValidDraft;
    StartKeeps(sys, plan);
  }

  /** The first call of a new saga is `Continue` on the freshly started one. */
  lemma {:induction false} FirstCallStarts(env: Env, sys: System, plan: Plan, now: int, approver: Principal, maxSteps: Option<int>)
    requires SystemOk(sys) && ValidDraft(plan.request.draft) && Starts(sys.store, plan)
    requires StartOrLoad(sys.store, plan, now, approver).1.Ok?
    ensures Running(Started(sys.store, plan), plan) && KeyedFor(sys.store, plan)
    ensures Execute(env, sys, plan, now, approver, maxSteps)
         == Continue(env, sys.(store := Started(sys.store, plan)), plan, now, approver, maxSteps)
  {
    hide SystemOk, ValidDraft, Continue;
    StartOrLoadStarts(sys.store, plan, now, approver);
    LoadedIfKeyed(sys, plan);
  }

  /** What the calm run of a new saga reaches: APPLIED, with exactly the planned objects published. */
  lemma CalmRunApplies(sys: System, plan: Plan, now: int, approver: Principal) returns (target: System, refs: Refs)
    requires SystemOk(sys) && ValidDraft(plan.request.draft) && Starts(sys.store, plan)
    requires StartOrLoad(sys.store, plan, now, approver).1.Ok?
    ensures KeyedFor(sys.store, plan)
    ensures var calm := Execute(CALM, sys, plan, now, approver, None).0;
            && Arrived(calm, target, plan)
            && Loaded(calm.store, plan) && Record(calm, plan).status == Applied && StepsDone(calm, plan) == |SAGA_STEPS|
            && Record(calm, plan).objects == RowsThrough(refs, |SAGA_STEPS|)
            && Published(calm.adapter, plan.request.draft, refs, |SAGA_STEPS|)
    ensures Tracks(sys.(store := Started(sys.store, plan)), target, plan)
  {
    hide SystemOk, Execute, ValidDraft, StartOrLoad, Starts, Started, Healthy, Advanced, Continue, CalmRun, OnTrack, Published, AtRest;
    NewSagaIsHealthy(sys, plan);
    var started := sys.(store := Started(sys.store, plan));
    FirstCallStarts(CALM, sys, plan, now, approver, None);
    refs := HealthyCompletes(started, plan, ANY_REFS, 0);
    target := CalmRun(started, plan).0;
    ContinueTracks(CALM, started, target, plan, now, approver, None);
    NotAdvanced(CALM, started, Continue(CALM, started, plan, now, approver, None).0, target, plan);
    HealthyParts(target, plan, refs, 8);
    DraftHasTwoAds(plan.request.draft);
    var calm := Execute(CALM, sys, plan, now, approver, None).0;
    ArrivedIs(calm, target, plan);
    PublishedIn(target.adapter, calm.adapter, plan.request.draft, refs, 8);
  }

  lemma NotAdvanced(env: Env, sys: System, later: System, target: System, plan: Plan)
    requires Running(sys.store, plan)
    ensures !Advanced(env, sys, later, target, plan, None)
  {
    hide Tracks, StepsDone;
  }

  lemma ArrivedIs(sys: System, target: System, plan: Plan)
    requires Arrived(sys, target, plan)
    ensures Loaded(sys.store, plan) && Loaded(target.store, plan) && Record(sys, plan).status == Applied
    ensures StepsDone(sys, plan) == StepsDone(target, plan) && Record(sys, plan).objects == Record(target, plan).objects
    ensures sys.adapter.objects == target.adapter.objects
  {
    assert sys.adapter.objects == Core(target.adapter).objects;
  }

  /** How the first call of a new saga ends. */
  lemma FirstCall(sys: System, target: System, plan: Plan, call: Call) returns (next: System)
    requires SystemOk(sys) && ValidDraft(plan.request.draft) && Starts(sys.store, plan) && Allowed(call)
    requires StartOrLoad(sys.store, plan, call.now, call.approver).1.Ok?
    requires Tracks(sys.(store := Started(sys.store, plan)), target, plan)
    ensures KeyedFor(sys.store, plan) && SystemOk(next)
    ensures next == Execute(call.env, sys, plan, call.now, call.approver, call.maxSteps).0
    ensures Running(Started(sys.store, plan), plan) && Ends(call, sys.(store := Started(sys.store, plan)), next, target, plan)
  {
    hide SystemOk, Execute, ValidDraft, StartOrLoad, Starts, Started, Advanced, Reaches, Continue, Tracks, KeyedFor, Lossy, Ends;
    var started := sys.(store := Started(sys.store, plan));
    FirstCallStarts(call.env, sys, plan, call.now, call.approver, call.maxSteps);
    ContinueTracks(call.env, started, target, plan, call.now, call.approver, call.maxSteps);
    ExecuteKeeps(call.env, sys, plan, call.now, call.approver, call.maxSteps);
    next := Execute(call.env, sys, plan, call.now, call.approver, call.maxSteps).0;
    CallEnds(call, started, next, target, plan);
  }

  lemma NothingDoneYet(sys: System, target: System, plan: Plan)
    requires Starts(sys.store, plan)
    ensures var started := sys.(store := Started(sys.store, plan));
            Loaded(started.store, plan) && StepsDone(started, plan) == 0
            && Distance(started, target, plan) <= |SAGA_STEPS| + 4
  {
    hide ReadKeys;
    FewReads(target, plan);
    SubsetSize(ReadKeys(target, plan) - sys.adapter.timedOut, ReadKeys(target, plan));
  }

  /**
   * Lost responses are invisible. Whatever calls lose their responses after taking effect, and however the steps are cut
   * into calls: as long as the saga is not finished it is in flight; a call without a budget finishes it, and so do any
   * twelve calls of at least one step; and then the whole store and the adapter's objects, counters and remembered results
   * are those of one uninterrupted run that lost nothing.
   */
  lemma {:induction false} LostResponsesAreInvisible(sys: System, plan: Plan, calls: seq<Call>)
    requires SystemOk(sys) && ValidDraft(plan.request.draft) && Starts(sys.store, plan) && calls != []
    requires StartOrLoad(sys.store, plan, calls[0].now, calls[0].approver).1.Ok?
    requires forall call <- calls :: Allowed(call)
    ensures KeyedFor(sys.store, plan)
    ensures var last := Serve(sys, plan, calls);
            var calm := Execute(CALM, sys, plan, calls[0].now, calls[0].approver, None).0;
            && Loaded(last.store, plan) && Record(last, plan).status in {InFlight, Applied}
            && (Record(last, plan).status == Applied ==> Same(last, calm))
            && ((exists call <- calls :: call.maxSteps.None?) ==> Record(last, plan).status == Applied)
            && (|calls| >= |SAGA_STEPS| + 4 ==> Record(last, plan).status == Applied)
  {
    hide SystemOk, Execute, ValidDraft, StartOrLoad, Starts, Started, Tracks, Arrived, KeyedFor, Lossy, Serve, StepsDone, Distance;
    var first := calls[0];
    assert Allowed(first);
    var target, refs := CalmRunApplies(sys, plan, first.now, first.approver);
    var next := FirstCall(sys, target, plan, first);
    NothingDoneYet(sys, target, plan);
    ServeFirst(sys, plan, calls);
    assert forall other :: other in calls[1..] ==> other in calls;
    assert calls == [first] + calls[1..];
    if Arrived(next, target, plan) {
      ServedFromThere(next, target, plan, calls[1..]);
    } else {
      ServedTracks(next, target, plan, calls[1..]);
    }
    Verdict(Serve(sys, plan, calls), Execute(CALM, sys, plan, first.now, first.approver, None).0, target, plan);
  }

  /** What arriving, and still being on the way, mean for the stored saga. */
  lemma Verdict(last: System, calm: System, target: System, plan: Plan)
    requires Arrived(calm, target, plan) && (Arrived(last, target, plan) || Tracks(last, target, plan))
    ensures Loaded(last.store, plan)
    ensures Arrived(last, target, plan) ==> Record(last, plan).status == Applied && Same(last, calm)
    ensures !Arrived(last, target, plan) ==> Record(last, plan).status == InFlight
    ensures !Arrived(last, target, plan) && StepsDone(last, plan) < |SAGA_STEPS| ==> Distance(last, target, plan) >= 1
  {
    hide Tracks, Arrived, ReadKeys;
    if Arrived(last, target, plan) {
      ArrivedIs(last, target, plan);
      ArrivedAgree(last, calm, target, plan);
    } else {
      TrackIsLoaded(last, target, plan);
    }
  }

  /**
   * Chunking is transparent. Any fault-free sequence of calls with positive budgets leaves the saga APPLIED exactly when
   * the budgets cover the eight steps, and then in the state of one uninterrupted run; before that it has completed
   * exactly as many steps as the budgets allow.
   */
  lemma {:induction false} ChunkingIsTransparent(sys: System, plan: Plan, calls: seq<Call>)
    requires SystemOk(sys) && ValidDraft(plan.request.draft) && Starts(sys.store, plan) && calls != []
    requires StartOrLoad(sys.store, plan, calls[0].now, calls[0].approver).1.Ok?
    requires forall call <- calls :: Allowed(call) && Calm(call)
    ensures KeyedFor(sys.store, plan)
    ensures var last := Serve(sys, plan, calls);
            var calm := Execute(CALM, sys, plan, calls[0].now, calls[0].approver, None).0;
            && Loaded(last.store, plan)
            && (Record(last, plan).status == Applied <==> Budgets(calls) >= |SAGA_STEPS|)
            && (Budgets(calls) >= |SAGA_STEPS| ==> Same(last, calm))
            && (Budgets(calls) < |SAGA_STEPS| ==> Record(last, plan).status == InFlight && StepsDone(last, plan) == Budgets(calls))
  {
    hide SystemOk, Execute, ValidDraft, StartOrLoad, Starts, Started, Tracks, Arrived, KeyedFor, Lossy, Serve, StepsDone, Distance;
    var first := calls[0];
    assert Allowed(first) && Calm(first);
    var target, refs := CalmRunApplies(sys, plan, first.now, first.approver);
    var next := FirstCall(sys, target, plan, first);
    NothingDoneYet(sys, target, plan);
    ServeFirst(sys, plan, calls);
    assert forall other :: other in calls[1..] ==> other in calls;
    BudgetsArePositive(calls[1..]);
    if first.maxSteps.value >= |SAGA_STEPS| {
      ServedFromThere(next, target, plan, calls[1..]);
    } else {
      ChunksAdd(next, target, plan, calls[1..]);
    }
    var last := Serve(sys, plan, calls);
    if Budgets(calls) < |SAGA_STEPS| {
      ArrivedOrNot(last, target, plan);
    }
    Verdict(last, Execute(CALM, sys, plan, first.now, first.approver, None).0, target, plan);
  }

  /** A finished saga is not on track any more. */
  lemma ArrivedOrNot(sys: System, target: System, plan: Plan)
    requires Tracks(sys, target, plan)
    ensures !Arrived(sys, target, plan)
  {
    hide Tracks;
    TrackIsLoaded(sys, target, plan);
    if Arrived(sys, target, plan) {
      ArrivedIs(sys, target, plan);
    }
  }

  lemma {:induction false} ServeFirst(sys: System, plan: Plan, calls: seq<Call>)
    requires SystemOk(sys) && calls != []
    ensures KeyedFor(sys.store, plan)
    ensures var call := calls[0];
            var next := Execute(call.env, sys, plan, call.now, call.approver, call.maxSteps).0;
            SystemOk(next) && Serve(sys, plan, calls) == Serve(next, plan, calls[1..])
  {
    hide Execute, SystemOk, KeyedFor;
    ExecuteKeeps(calls[0].env, sys, plan, calls[0].now, calls[0].approver, calls[0].maxSteps);
  }

  lemma ArrivedAgree(one: System, two: System, target: System, plan: Plan)
    requires Arrived(one, target, plan) && Arrived(two, target, plan)
    ensures Same(one, two)
  {
  }
}
