/** Runs from an empty store into each kind of stuck saga. */
module SagaWedgeRuns {
  import opened Basics
  import opened CampaignTypes
  import opened DirectAdapter
  import opened SagaStore
  import opened SagaService
  import opened SagaMachine
  import opened SagaSafety
  import opened SagaInvariant
  import opened SagaEvents
  import opened SagaRuns
  import opened SagaRefinement
  import opened SagaTracks
  import opened SagaCalm
  import opened SagaCompensation
  import opened SagaLostResponses
  import opened SagaWedges

  // ---------- a healthy saga after some steps ----------

  /** A plan a reservation and an approval can be registered for. */
  predicate Grantable(plan: Plan) {
    && ValidDraft(plan.request.draft)
    && plan.request.reservation != "" && plan.request.account != "" && plan.request.proposal != "" && plan.request.profile != ""
  }

  function GrantedReservation(plan: Plan): Reservation {
    var request := plan.request;
    Reservation(Available, request.account, request.draft.campaignType, request.proposal, request.profile, 1, None)
  }

  function GrantedApproval(plan: Plan): Approval {
    Approval(Available, plan.request.proposal, Binding(plan), ANYBODY.identity, ANYBODY.authentication, 1, true, None)
  }

  lemma {:induction false} HealthyStarts(first: Config, plan: Plan) returns (events: seq<Event>)
    requires Initial(first) && Grantable(plan)
    ensures var c := RunEvents(first, events);
            Inv(c) && c.at == Working(plan) && Healthy(c.sys, plan, ANY_REFS, 0)
  {
    hide RunEvents, Next, Healthy, Inv, Initial;
    var a := AddReservation(plan.request.reservation, GrantedReservation(plan));
    var b := AddApproval(plan.request.approval, GrantedApproval(plan));
    var begin := Begin(plan, 0, ANYBODY);
    InitialInv(first);
    RunOne(first, a);
    RunThen(first, [a], b);
    RunThen(first, [a, b], begin);
    assert [a] + [b] == [a, b] && [a, b] + [begin] == [a, b, begin];
    events := [a, b, begin];
    var granted := RunEvents(first, [a, b]);
    RunInv(first, [a, b]);
    RunInv(first, events);
    GrantsAdded(first, granted, plan);
    Begins(granted, plan);
  }

  lemma GrantsAdded(first: Config, granted: Config, plan: Plan)
    requires Initial(first) && Grantable(plan)
    requires granted == Next(Next(first, AddReservation(plan.request.reservation, GrantedReservation(plan))),
                             AddApproval(plan.request.approval, GrantedApproval(plan)))
    ensures granted.at.Idle? && granted.sys.adapter == first.sys.adapter
    ensures granted.sys.store == EMPTY_STORE.(reservations := map[plan.request.reservation := GrantedReservation(plan)],
                                              approvals := map[plan.request.approval := GrantedApproval(plan)])
  {
    hide ValidDraft;
  }

  lemma Begins(granted: Config, plan: Plan)
    requires Inv(granted) && granted.at.Idle? && Grantable(plan)
    requires granted.sys.store == EMPTY_STORE.(reservations := map[plan.request.reservation := GrantedReservation(plan)],
                                               approvals := map[plan.request.approval := GrantedApproval(plan)])
    ensures var c := Next(granted, Begin(plan, 0, ANYBODY)); c.at == Working(plan) && Healthy(c.sys, plan, ANY_REFS, 0)
  {
    hide SystemOk, Healthy, ValidDraft;
    NewSagaIsHealthy(granted.sys, plan);
  }

  /** The first `n` steps without faults, as events. */
  lemma {:induction false} HealthyAfter(first: Config, plan: Plan, n: nat) returns (events: seq<Event>, refs: Refs)
    requires Initial(first) && Grantable(plan) && n <= 7
    ensures var c := RunEvents(first, events);
            Inv(c) && c.at == Working(plan) && Healthy(c.sys, plan, refs, n)
  {
    hide RunEvents, Healthy, Inv, Initial, RunStep, Running, Grantable;
    if n == 0 {
      events := HealthyStarts(first, plan);
      refs := ANY_REFS;
    } else {
      events, refs := HealthyAfter(first, plan, n - 1);
      var c := RunEvents(first, events);
      HealthyParts(c.sys, plan, refs, n - 1);
      RunningLoads(c.sys.store, plan);
      HealthyStep(c.sys, plan, refs, n - 1);
      StepsDoneIs(c.sys, plan);
      OrdinalOf(n - 1);
      var step := StepIsARun(CALM, c, plan, StepAt(n - 1));
      RunInv(c, step);
      RunConcat(first, events, step);
      events, refs := events + step, Grown(c.sys, refs, n - 1);
    }
  }

  // ---------- a crash between registering and closing ----------

  /** Every later add step can be stopped so that the saga is stuck: its objects are registered, and the process dies. */
  lemma {:induction false} ReachesRegistered(first: Config, plan: Plan, n: nat) returns (events: seq<Event>)
    requires Initial(first) && Grantable(plan) && 1 <= n < 4
    ensures var c := RunEvents(first, events);
            c.at.Idle? && Stuck(c.sys, plan) && Record(c.sys, plan).status == InFlight && |Record(c.sys, plan).steps| == n
  {
    hide RunEvents, Next, Healthy, Inv, Initial, Running, Stuck, Grantable;
    var begun, refs := HealthyAfter(first, plan, n);
    var c := RunEvents(first, begun);
    var more := Replies(c, plan, refs, n);
    var replied := RunEvents(c, more);
    RunInv(c, more);
    RunConcat(first, begun, more);
    RunThen(first, begun + more, RegisterObjects);
    RunThen(first, begun + more + [RegisterObjects], Crash);
    events := begun + more + [RegisterObjects] + [Crash];
    Registers(c.sys, refs, replied, plan, n);
    StuckAfterCrash(replied, plan);
  }

  lemma StuckAfterCrash(c: Config, plan: Plan)
    ensures Next(c, RegisterObjects) == DoRegister(c)
    ensures Next(DoRegister(c), Crash) == DoRegister(c).(at := Idle)
  {
    hide DoRegister;
  }

  /** The answered next add step: its claim stands, and the objects are new. */
  lemma {:induction false} Replies(c: Config, plan: Plan, refs: Refs, n: nat) returns (events: seq<Event>)
    requires Inv(c) && c.at == Working(plan) && Healthy(c.sys, plan, refs, n) && 1 <= n < 4
    ensures var d := RunEvents(c, events);
            && Running(d.sys.store, plan) && d.at.Replied? && d.at.plan == plan && d.at.step == StepAt(n)
            && d.at.reply.created == CreatedAt(Grown(c.sys, refs, n), StepAt(n))
            && d.sys.store.index == c.sys.store.index
            && |Record(d.sys, plan).steps| == n && Numbered(c.sys)
            && exists row :: row in Record(d.sys, plan).dispatches && row.step == StepAt(n) && !row.completed
  {
    hide RunEvents, Healthy, Inv, Send, Apply, Live, HandlerRequest, CreatedAt, Numbered, BelowCounters, ValidDraft, AddRequest,
         RowsThrough, AtRest, CanConsume, BeginStep;
    HealthyParts(c.sys, plan, refs, n);
    StepsDoneIs(c.sys, plan);
    var step, request := StepAt(n), AddRequest(plan, refs, n);
    AddRequestBuilt(plan, refs, n);
    CalmCreates(c.sys, plan, refs, n);
    NewContentsAre(plan, refs, n);
    CalmSends(c.sys, plan, n, request);
    AddRequestShape(plan, Live(RowsThrough(refs, n)), step);
    events := SendIsARun(CALM, c, plan, step, request);
    var row := DispatchRow(n, step, request, false);
    assert row in Record(Send(CALM, c.sys, request).0, plan).dispatches;
  }

  lemma Registers(before: System, refs: Refs, c: Config, plan: Plan, n: nat)
    requires Inv(c) && 1 <= n < 4 && Running(c.sys.store, plan) && c.at.Replied? && c.at.plan == plan && c.at.step == StepAt(n)
    requires exists row :: row in Record(c.sys, plan).dispatches && row.step == StepAt(n) && !row.completed
    requires Numbered(before) && before.store.index == c.sys.store.index
    requires c.at.reply.created == CreatedAt(Grown(before, refs, n), StepAt(n))
    requires |Record(c.sys, plan).steps| == n
    ensures Stuck(DoRegister(c).sys, plan)
    ensures Loaded(DoRegister(c).sys.store, plan)
    ensures Record(DoRegister(c).sys, plan).status == InFlight && |Record(DoRegister(c).sys, plan).steps| == n
  {
    hide Inv, Stuck, Numbered, CreatedAt, Grown, DistinctRefs, RefsOf, TypesMatch;
    NewRefsAreNew(before, refs, n);
    CrashAfterRegistering(c);
  }

  // ---------- a lost response with the wrong type ----------

  const WRONG_TYPES := map[Campaigns := "X", AdGroups := "X", Ads := "X", Keywords := "X"]

  /** The response to the next add is lost, and its objects get a type nobody planned. */
  function WrongAndLost(plan: Plan, n: nat): Env
    requires n < 4
  {
    Env(Faults({}, {StepKey(plan.request.execution, StepAt(n))}, WRONG_TYPES), {}, {})
  }

  /**
   * A fault-free saga meets it at any later add step, and the process is started again: the saga is then stuck, with the
   * wrong objects registered and standing.
   */
  lemma {:induction false} ReachesWrongType(first: Config, plan: Plan, n: nat) returns (events: seq<Event>)
    requires Initial(first) && Grantable(plan) && 1 <= n < 4
    ensures var c := RunEvents(first, events);
            c.at.Idle? && Stuck(c.sys, plan) && Record(c.sys, plan).status == InFlight && |Record(c.sys, plan).steps| == n
  {
    hide RunEvents, Next, Healthy, Inv, Initial, Running, Stuck, Grantable, Send, Reconcile, Register, TypesMatch, Awaits, Answers;
    var begun, refs := HealthyAfter(first, plan, n);
    var c := RunEvents(first, begun);
    var more, reply := LosesResponse(c, plan, refs, n);
    var lost := RunEvents(c, more);
    RunInv(c, more);
    RunConcat(first, begun, more);
    RunThen(first, begun + more, Crash);
    RunThen(first, begun + more + [Crash], Begin(plan, 0, ANYBODY));
    Restarts(lost, plan, StepAt(n));
    var again := Config(lost.sys, Reconciling(plan, AtStart));
    LostWrongTypeIsStuck(lost.sys, plan, StepAt(n), reply);
    var rest := ReconcileIsARun(again, plan, AtStart);
    RegisterFrame(lost.sys.store, plan, StepAt(n), reply.created);
    RunConcat(first, begun + more + [Crash] + [Begin(plan, 0, ANYBODY)], rest);
    events := begun + more + [Crash] + [Begin(plan, 0, ANYBODY)] + rest;
  }

  /** After a crash the saga is loaded, and its pending dispatch is reconciled first. */
  lemma Restarts(c: Config, plan: Plan, step: Step)
    requires Inv(c) && Awaits(c.sys, plan, step)
    ensures Next(Next(c, Crash), Begin(plan, 0, ANYBODY)) == Config(c.sys, Reconciling(plan, AtStart))
    ensures SystemOk(c.sys) && Running(c.sys.store, plan) && Shaped(Record(c.sys, plan))
  {
    hide SystemOk, Shaped, FirstPending, PositionOk, Lockstep, RowsKnown, Accounted, Truthful, RepliesFit;
    PendingIs(c.sys, plan, step);
    SagaParts(c.sys, plan);
    assert c.sys.(store := c.sys.store) == c.sys;
  }

  lemma RegisterFrame(st: Store, plan: Plan, step: Step, created: seq<Created>)
    requires Running(st, plan)
    ensures var later := Register(st, plan.request.execution, step, created).0;
            && Running(later, plan)
            && later.sagas[plan.request.execution].steps == st.sagas[plan.request.execution].steps
  {
  }

  /** What is left when the response to the next add is lost. */
  lemma {:induction false} LosesResponse(c: Config, plan: Plan, refs: Refs, n: nat) returns (events: seq<Event>, reply: Reply)
    requires Inv(c) && c.at == Working(plan) && Healthy(c.sys, plan, refs, n) && 1 <= n < 4
    ensures var d := RunEvents(c, events);
            && Running(d.sys.store, plan) && |Record(d.sys, plan).steps| == n
            && Awaits(d.sys, plan, StepAt(n)) && Answers(d.sys, plan, StepAt(n), reply)
            && (var request := Last(Record(d.sys, plan).dispatches).request;
                reply.service == request.service && reply.verb == request.verb)
            && Register(d.sys.store, plan.request.execution, StepAt(n), reply.created).1.Ok? && !TypesMatch(reply.created, StepAt(n))
  {
    hide RunEvents, Inv, Healthy, Send, Apply, Live, HandlerRequest, Numbered, BelowCounters, ValidDraft, AddRequest, RowsThrough, AtRest,
         CanConsume, BeginStep, Register, TypesMatch, WrongAndLost, Awaits;
    var sys, env := c.sys, WrongAndLost(plan, n);
    HealthyParts(sys, plan, refs, n);
    StepsDoneIs(sys, plan);
    var step, request := StepAt(n), AddRequest(plan, refs, n);
    AddRequestBuilt(plan, refs, n);
    NewContentsAre(plan, refs, n);
    AddRequestShape(plan, Live(RowsThrough(refs, n)), step);
    SendsAll(env, sys, plan, n, request);
    events := SendIsARun(env, c, plan, step, request);
    var sent := Send(env, sys, request).0;
    reply := sent.adapter.results[request.key];
    var row := DispatchRow(n, step, request, false);
    WrongObjects(sys, plan, refs, n, reply.created);
    ClaimedAwaits(sys, sent, plan, n, row);
    ClaimedRegisters(sys, sent, plan, step, reply.created, row);
  }

  /** Nothing refuses the write: it takes effect and is remembered, whether or not its response arrives. */
  lemma SendsAll(env: Env, sys: System, plan: Plan, n: nat, request: DirectRequest)
    requires 1 <= n < 4 && AtRest(sys, plan) && StepsDone(sys, plan) == n && env == WrongAndLost(plan, n)
    requires HandlerRequest(plan, Live(Record(sys, plan).objects), StepAt(n)) == Ok(request) && request.verb == Add
    ensures BeginStep(Record(sys, plan), StepAt(n)).Ok?
    ensures var sent := Send(env, sys, request).0;
            var effect := Apply(WRONG_TYPES, sys.adapter, request);
            var record := Record(sys, plan);
            && effect.outcome.Answered?
            && effect.outcome.reply.service == request.service && effect.outcome.reply.verb == request.verb
            && request.key == StepKey(plan.request.execution, StepAt(n))
            && request.key in sent.adapter.results && sent.adapter.results[request.key] == effect.outcome.reply
            && sent.store == Put(sys.store, plan.request.execution,
                                 record.(dispatches := record.dispatches + [DispatchRow(n, StepAt(n), request, false)]))
  {
    hide SystemOk, Apply, Live, ExpectedRequest, HandlerRequest, NothingPending, Owned, Shaped, Lockstep, RowsKnown, Accounted, Truthful,
         RepliesFit, FirstPending, HasDispatch;
    var record := Record(sys, plan);
    OrdinalOf(n);
    SagaParts(sys, plan);
    PendingFirst(record);
    NextIsDispatchedIfPending(record, StepAt(n));
    HandlerMatchesPlan(record, StepAt(n));
    AddRequestShape(plan, Live(record.objects), StepAt(n));
    NotYetAnswered(sys, plan, StepAt(n));
    AddAnswers(WRONG_TYPES, sys.adapter, request);
    assert ClaimRecord(record, request, true)
        == (record.(dispatches := record.dispatches + [DispatchRow(n, StepAt(n), request, false)]), Ok(true));
    hide ClaimRecord, CancelClaim;
  }

  lemma AddAnswers(types: map<Service, string>, a: Adapter, request: DirectRequest)
    requires request.verb == Add
    ensures var effect := Apply(types, a, request);
            effect.outcome.Answered? && effect.outcome.reply.service == request.service && effect.outcome.reply.verb == Add
  {
    hide AddAll, NewContents, NewType, NewState, CreatedOf;
  }

  /** The objects are new, and none is of a planned type. */
  lemma WrongObjects(sys: System, plan: Plan, refs: Refs, n: nat, created: seq<Created>)
    requires 1 <= n < 4 && Numbered(sys) && ValidDraft(plan.request.draft)
    requires created == Apply(WRONG_TYPES, sys.adapter, AddRequest(plan, refs, n)).outcome.reply.created
    ensures created != [] && DistinctRefs(created) && RefsOf(created) * sys.store.index == {} && !TypesMatch(created, StepAt(n))
  {
    hide AddAll;
    var request := AddRequest(plan, refs, n);
    var last := LastId(sys.adapter.sequence, request.service);
    AddAllIsFresh(sys.adapter.objects, last, request.service, "X", NewState(request.service, request.payload),
                  NewContents(request.payload));
    NewContentsAre(plan, refs, n);
    assert created[0].actualType == "X";
    hide NewContents, NewState;
  }

  lemma ClaimedAwaits(sys: System, sent: System, plan: Plan, n: nat, row: DispatchRow)
    requires 1 <= n < 4 && AtRest(sys, plan) && |Record(sys, plan).steps| == n && row.step == StepAt(n)
    requires var record := Record(sys, plan);
             sent.store == Put(sys.store, plan.request.execution, record.(dispatches := record.dispatches + [row]))
    ensures Awaits(sent, plan, row.step) && |Record(sent, plan).steps| == n && Last(Record(sent, plan).dispatches) == row
  {
    hide SystemOk;
  }

  lemma ClaimedRegisters(sys: System, sent: System, plan: Plan, step: Step, created: seq<Created>, row: DispatchRow)
    requires Running(sys.store, plan) && row.step == step && !row.completed
    requires var record := Record(sys, plan);
             sent.store == Put(sys.store, plan.request.execution, record.(dispatches := record.dispatches + [row]))
    requires created != [] && DistinctRefs(created) && RefsOf(created) * sys.store.index == {}
    ensures Register(sent.store, plan.request.execution, step, created).1.Ok?
  {
    hide DistinctRefs, RefsOf;
    assert row in Record(sent, plan).dispatches;
  }

  // ---------- a crash in the compensation of a refused moderation ----------

  /** The adapter's objects after the site refused one of the ads. */
  function WithRefused(objects: map<ObjectRef, DirectObject>, ad: ObjectRef): map<ObjectRef, DirectObject>
    requires ad in objects
  {
    objects[ad := objects[ad].(state := Suspended)]
  }

  /** All five objects, in the order of their creation. */
  function Built(refs: Refs): seq<ObjectRef> {
    [refs.campaign, refs.group, refs.adA, refs.adB, refs.keyword]
  }

  /**
   * The moderation readback shows a refused ad, compensation starts, deletes the keyword and both ads, and the process
   * dies: the campaign still stands, owned by a saga that is in flight and stuck.
   */
  lemma {:induction false} ReachesRefusedModeration(first: Config, plan: Plan) returns (events: seq<Event>, campaign: ObjectRef)
    requires Initial(first) && Grantable(plan)
    ensures var c := RunEvents(first, events);
            && c.at.Idle? && Stuck(c.sys, plan) && Record(c.sys, plan).status == InFlight && |Record(c.sys, plan).steps| == 5
            && campaign.service == Campaigns && campaign in c.sys.adapter.objects && OwnsLive(c.sys, plan, campaign)
  {
    hide RunEvents, Next, Healthy, Inv, Initial, Running, Stuck, Grantable, OwnsLive, Built, AtRest;
    var begun, refs := HealthyAfter(first, plan, 5);
    campaign := refs.campaign;
    var c := RunEvents(first, begun);
    var moderated := ReadsRefusal(c, plan, refs);
    var d := RunEvents(c, moderated);
    RunInv(c, moderated);
    RunConcat(first, begun, moderated);
    var ads, rest := [refs.keyword, refs.adB, refs.adA], [refs.group, refs.campaign];
    assert ads + rest == Reversed(Built(refs)) by { BuiltBackwards(refs); }
    var deletes := DeletesAreARun(CALM, d, plan, ads, rest, 0, "MODERATION_REQUEST_NOT_ACCEPTED");
    RunInv(d, deletes);
    RunConcat(first, begun + moderated, deletes);
    RunThen(first, begun + moderated + deletes, Crash);
    events := begun + moderated + deletes + [Crash];
    Crashes(RunEvents(d, deletes));
    AdsGone(d.sys, RunEvents(d, deletes), plan, refs);
  }

  lemma Crashes(c: Config)
    ensures Next(c, Crash) == c.(at := Idle)
  {
  }

  lemma BuiltBackwards(refs: Refs)
    ensures [refs.keyword, refs.adB, refs.adA] + [refs.group, refs.campaign] == Reversed(Built(refs))
  {
    hide Reversed;
  }

  /** The saga of five steps waits in compensation, with all its objects deletable. */
  ghost predicate Undoable(sys: System, plan: Plan, refs: Refs) {
    && AtRest(sys, plan) && |Record(sys, plan).steps| == 5 && GoodRefs(refs)
    && LiveObjects(sys, plan) == Built(refs)
    && (forall ref <- Built(refs) :: ref in sys.adapter.objects && DeleteAllowed(sys, plan, ref))
    && refs.campaign in sys.adapter.objects && sys.adapter.objects[refs.campaign].state == Suspended
    && refs.adB in sys.adapter.objects && sys.adapter.objects[refs.adB].state == Moderation
  }

  /** The readback of the ads finds one suspended, and compensation starts. */
  lemma {:induction false} ReadsRefusal(c: Config, plan: Plan, refs: Refs) returns (events: seq<Event>)
    requires Inv(c) && c.at == Working(plan) && Healthy(c.sys, plan, refs, 5)
    ensures var d := RunEvents(c, events);
            && Undoable(d.sys, plan, refs) && Running(d.sys.store, plan)
            && d.at == Compensating(plan, Reversed(Built(refs)), 0, false, "MODERATION_REQUEST_NOT_ACCEPTED")
  {
    hide RunEvents, Inv, Healthy, RunStep, SystemOk, NothingPending, Undoable, Published, RowsThrough, CanConsume, Numbered, BelowCounters,
         ValidDraft, Reversed, Live, Owned, Next, StartCompensation;
    HealthyParts(c.sys, plan, refs, 5);
    StepsDoneIs(c.sys, plan);
    AllPublished(c.sys, plan, refs);
    assert refs.adA == Built(refs)[2];
    var objects := WithRefused(c.sys.adapter.objects, refs.adA);
    events := [Drift(objects), RunReadStep(CALM)];
    RunOne(c, Drift(objects));
    RunThen(c, [Drift(objects)], RunReadStep(CALM));
    assert [Drift(objects)] + [RunReadStep(CALM)] == events;
    RunInv(c, [Drift(objects)]);
    var drifted := Config(c.sys.(adapter := c.sys.adapter.(objects := objects)), Working(plan));
    ReadsAfterDrift(c, plan, objects);
    InvAtRest(drifted, plan);
    RefusedReadback(c.sys, drifted.sys, plan, refs);
  }

  lemma ReadsAfterDrift(c: Config, plan: Plan, objects: map<ObjectRef, DirectObject>)
    requires c.at == Working(plan) && Running(c.sys.store, plan) && |Record(c.sys, plan).steps| == 5
    requires objects.Keys == c.sys.adapter.objects.Keys
    ensures var drifted := Config(c.sys.(adapter := c.sys.adapter.(objects := objects)), Working(plan));
            && Next(c, Drift(objects)) == drifted
            && Next(drifted, RunReadStep(CALM)) == AfterStep(RunStep(CALM, drifted.sys, plan, ModerationReadback), plan)
  {
    hide RunStep, StartCompensation, Live;
  }

  lemma InvAtRest(c: Config, plan: Plan)
    requires Inv(c) && c.at == Working(plan)
    ensures AtRest(c.sys, plan)
  {
    hide SystemOk, NothingPending;
  }

  /** Where the objects of a healthy saga stand after submitting its ads. */
  lemma {:induction false} AllPublished(sys: System, plan: Plan, refs: Refs)
    requires Healthy(sys, plan, refs, 5)
    ensures Running(sys.store, plan) && LiveObjects(sys, plan) == Built(refs) && LiveRefs(sys, plan, Ads) == [refs.adA, refs.adB]
    ensures forall ref <- Built(refs) :: ref in sys.adapter.objects && Owned(sys.store, plan.request.run, ref)
    ensures sys.adapter.objects[refs.campaign].state == Suspended && sys.adapter.objects[refs.keyword].state == Suspended
    ensures sys.adapter.objects[refs.adB].state == Moderation
  {
    hide SystemOk, RowsThrough, CanConsume, NothingPending, Live, OfService, Owns, Owned, AtRest, Running;
    HealthyParts(sys, plan, refs, 5);
    DraftHasTwoAds(plan.request.draft);
    HealthyOwns(sys, plan, refs, 5, Campaigns);
    HealthyOwns(sys, plan, refs, 5, AdGroups);
    HealthyOwns(sys, plan, refs, 5, Ads);
    HealthyOwns(sys, plan, refs, 5, Keywords);
    LiveThrough(refs, 5);
    AllCreated(refs);
  }

  /** The objects created by the first `n` steps. */
  function CreatedThrough(refs: Refs, n: nat): seq<Created>
    requires n <= |SAGA_STEPS|
  {
    if n == 0 then [] else CreatedThrough(refs, n - 1) + CreatedAt(refs, SAGA_STEPS[n - 1])
  }

  lemma {:induction false} LiveThrough(refs: Refs, n: nat)
    requires n <= |SAGA_STEPS|
    ensures Live(RowsThrough(refs, n)) == CreatedThrough(refs, n)
  {
    hide Live, CreatedAt;
    if n == 0 {
      NoneLive();
    } else {
      LiveThrough(refs, n - 1);
      LiveConcat(RowsThrough(refs, n - 1), RowsOf(CreatedAt(refs, SAGA_STEPS[n - 1]), SAGA_STEPS[n - 1]));
      LiveOfNew(CreatedAt(refs, SAGA_STEPS[n - 1]), SAGA_STEPS[n - 1]);
    }
  }

  lemma NoneLive()
    ensures Live([]) == []
  {
  }

  lemma {:induction false} AllCreated(refs: Refs)
    ensures CreatedRefs(CreatedThrough(refs, 5)) == Built(refs)
  {
    assert CreatedThrough(refs, 5) == CreatedThrough(refs, 4);
    assert CreatedThrough(refs, 1) == [Created(refs.campaign, "UNIFIED_CAMPAIGN")];
    assert CreatedThrough(refs, 2) == [Created(refs.campaign, "UNIFIED_CAMPAIGN"), Created(refs.group, "UNIFIED_AD_GROUP")];
    assert CreatedThrough(refs, 4) == CreatedThrough(refs, 2) + CreatedAt(refs, AdsAdd) + CreatedAt(refs, KeywordAdd);
  }

  /** Every object of the saga is deletable when the readback finds an ad suspended. */
  lemma RefusedReadback(sys: System, drifted: System, plan: Plan, refs: Refs)
    requires AtRest(drifted, plan) && drifted.store == sys.store && |Record(drifted, plan).steps| == 5 && GoodRefs(refs)
    requires LiveObjects(sys, plan) == Built(refs) && LiveRefs(sys, plan, Ads) == [refs.adA, refs.adB]
    requires forall ref <- Built(refs) :: ref in sys.adapter.objects && Owned(sys.store, plan.request.run, ref)
    requires sys.adapter.objects[refs.campaign].state == Suspended && sys.adapter.objects[refs.keyword].state == Suspended
    requires sys.adapter.objects[refs.adB].state == Moderation
    requires drifted.adapter.objects == WithRefused(sys.adapter.objects, refs.adA)
    ensures var r := RunStep(CALM, drifted, plan, ModerationReadback);
            && r.1 == Failure("MODERATION_REQUEST_NOT_ACCEPTED") && Undoable(r.0, plan, refs)
            && StartCompensation(r.0, plan, "MODERATION_REQUEST_NOT_ACCEPTED")
               == Compensating(plan, Reversed(Built(refs)), 0, false, "MODERATION_REQUEST_NOT_ACCEPTED")
  {
    hide SystemOk, NothingPending, BeginStep, Read, Owned, Live, OfService, Reversed;
    OrdinalOf(5);
    RestBegins(drifted, plan, ModerationReadback);
    CalmReads(drifted, plan.request.run, Ads, [refs.adA, refs.adB]);
    var read := Read(CALM, drifted, plan.request.run, Ads, [refs.adA, refs.adB]);
    assert read.1.reply.readback[0].item.state == Suspended;
    AllDeletable(read.0, plan, refs);
    assert refs.campaign == Built(refs)[0] && refs.adB == Built(refs)[3];
    hide DeleteAllowed;
  }

  lemma AllDeletable(sys: System, plan: Plan, refs: Refs)
    requires GoodRefs(refs) && forall ref <- Built(refs) :: ref in sys.adapter.objects && Owned(sys.store, plan.request.run, ref)
    requires sys.adapter.objects[refs.campaign].state == Suspended && sys.adapter.objects[refs.keyword].state == Suspended
    requires sys.adapter.objects[refs.adA].state == Suspended && sys.adapter.objects[refs.adB].state == Moderation
    ensures forall ref <- Built(refs) :: DeleteAllowed(sys, plan, ref)
  {
    hide Owned;
  }

  /** Deleting the keyword and the ads succeeds, and leaves nothing to read for the step that comes next. */
  lemma {:induction false} AdsGone(sys: System, later: Config, plan: Plan, refs: Refs)
    requires Undoable(sys, plan, refs) && Running(sys.store, plan) && Inv(later)
    requires later.sys == CompensateAll(CALM, sys, plan, [refs.keyword, refs.adB, refs.adA]).0
    ensures Stuck(later.sys, plan) && Record(later.sys, plan).status == InFlight && |Record(later.sys, plan).steps| == 5
    ensures refs.campaign in later.sys.adapter.objects && OwnsLive(later.sys, plan, refs.campaign)
  {
    hide SystemOk, Stuck, CompensateAll, Undoes, OwnsLive, OwnsRest, LiveObjects, Shaped, PositionOk, LiveRefs;
    var ads := [refs.keyword, refs.adB, refs.adA];
    LiveList(sys, plan);
    BuiltDistinct(sys, plan, refs);
    DeletesExactly(CALM, sys, plan, ads);
    CompensationFrame(CALM, sys, plan, ads, refs.campaign);
    forall ref <- ads ensures Undoes(CALM, sys, plan, ref) {
      CalmUndoes(sys, plan, refs, ref);
    }
    LiveIsOwned(sys, plan, refs.campaign);
    RestOwned(sys, later.sys, plan, ads, refs);
    NoAdsIsStuck(later.sys, plan);
    hide AtRest, DeleteAllowed, GoodRefs;
  }

  lemma NoAdsIsStuck(sys: System, plan: Plan)
    requires AtRest(sys, plan) && |Record(sys, plan).steps| == 5 && LiveRefs(sys, plan, Ads) == []
    ensures Stuck(sys, plan)
  {
    hide SystemOk, NothingPending, Stuck, LiveRefs;
    RestStuckWhen(sys, plan);
  }

  lemma BuiltDistinct(sys: System, plan: Plan, refs: Refs)
    requires Loaded(sys.store, plan) && LiveObjects(sys, plan) == Built(refs) && Distinct(LiveObjects(sys, plan))
    ensures Distinct([refs.keyword, refs.adB, refs.adA])
    ensures refs.campaign !in [refs.keyword, refs.adB, refs.adA]
    ensures refs.campaign in LiveObjects(sys, plan)
  {
    hide LiveObjects;
    assert Built(refs)[0] == refs.campaign && Built(refs)[2] == refs.adA && Built(refs)[3] == refs.adB && Built(refs)[4] == refs.keyword;
  }

  lemma CalmUndoes(sys: System, plan: Plan, refs: Refs, ref: ObjectRef)
    requires Undoable(sys, plan, refs) && ref in Built(refs)
    ensures Undoes(CALM, sys, plan, ref)
  {
    hide LiveObjects, DeleteAllowed, NothingPending, SentOnce, Keyed, GrantsBound, SagaOk;
  }

  /** Compensation touches neither the steps nor the claims, nor an object that is not listed. */
  lemma {:induction false} CompensationFrame(env: Env, sys: System, plan: Plan, todo: seq<ObjectRef>, kept: ObjectRef)
    requires Running(sys.store, plan) && Shaped(Record(sys, plan)) && kept !in todo
    ensures var later := CompensateAll(env, sys, plan, todo).0;
            && Record(later, plan).steps == Record(sys, plan).steps && Record(later, plan).dispatches == Record(sys, plan).dispatches
            && (kept in sys.adapter.objects ==>
                  kept in later.adapter.objects && later.adapter.objects[kept] == sys.adapter.objects[kept])
    decreases |todo|
  {
    hide CompensateOne, Shaped, Undoes, Sends, OwnsLive, OthersSame;
    if todo != [] {
      OneDelete(env, sys, plan, todo[0]);
      OtherStands(sys, CompensateOne(env, sys, plan, todo[0]).0, plan, todo[0], kept);
      CompensationFrame(env, CompensateOne(env, sys, plan, todo[0]).0, plan, todo[1..], kept);
    }
  }

  lemma OtherStands(sys: System, later: System, plan: Plan, ref: ObjectRef, kept: ObjectRef)
    requires Loaded(sys.store, plan) && Loaded(later.store, plan) && OthersSame(sys, later, plan, ref) && kept != ref
    ensures kept in sys.adapter.objects ==>
              kept in later.adapter.objects && later.adapter.objects[kept] == sys.adapter.objects[kept]
  {
    assert SameFor(sys, later, plan, kept);
  }

  lemma {:induction false} RestOwned(sys: System, later: System, plan: Plan, ads: seq<ObjectRef>, refs: Refs)
    requires Loaded(sys.store, plan) && Loaded(later.store, plan) && OwnsRest(CALM, sys, later, plan, ads)
    requires LiveObjects(sys, plan) == Built(refs) && GoodRefs(refs) && ads == [refs.keyword, refs.adB, refs.adA]
    requires forall ref <- ads :: Undoes(CALM, sys, plan, ref)
    ensures LiveRefs(later, plan, Ads) == []
    ensures refs.campaign !in ads && OwnsLive(sys, plan, refs.campaign) ==> OwnsLive(later, plan, refs.campaign)
  {
    hide LiveObjects, LiveRefs, Undoes;
    if LiveRefs(later, plan, Ads) != [] {
      var ref := LiveRefs(later, plan, Ads)[0];
      LiveRefsOwned(later, plan, Ads);
      LiveIsOwned(sys, plan, ref);
    }
  }
}
