/** What a run can say about going forward: before the ads are submitted, and after compensation deleted something. */
module SagaForward {
  import opened Basics
  import opened CampaignTypes
  import opened DirectAdapter
  import opened SagaStore
  import opened SagaService
  import opened SagaMachine
  import opened SagaSafety
  import opened SagaInvariant
  import opened SagaEvents
  import opened SagaRuns
  import opened SagaRefinement
  import opened SagaTracks
  import opened SagaCalm
  import opened SagaCompensation
  import opened SagaWedges
  import opened SagaWedgeRuns
  import opened SagaProgress
  import opened SagaProgressRuns

  lemma {:induction false} Reached(first: Config, events: seq<Event>)
    requires Initial(first)
    ensures Inv(RunEvents(first, events)) && Orderly(RunEvents(first, events))
  {
    hide RunEvents, Inv, Orderly, Initial;
    InitialInv(first);
    InitialOrderly(first);
    RunOrderly(first, events);
  }

  // ---------- a saga that was applied ----------

  /**
   * In every run a saga that completed all its steps, so every APPLIED one, has not lost an object to compensation: no row
   * is compensated, and no delete under one of its keys ever took effect.
   */
  lemma {:induction false} AppliedIsWhole(first: Config, events: seq<Event>, k: string)
    requires Initial(first)
    requires var st := RunEvents(first, events).sys.store;
             k in st.sagas && (st.sagas[k].status == Applied || |st.sagas[k].steps| == |SAGA_STEPS|)
    ensures var sys := RunEvents(first, events).sys;
            && |sys.store.sagas[k].steps| == |SAGA_STEPS|
            && (forall row <- sys.store.sagas[k].objects :: !row.compensated)
            && (forall ref :: CompensationKey(k, ref) !in sys.adapter.results)
  {
    hide RunEvents, Initial;
    Reached(first, events);
    WholeHere(RunEvents(first, events), k);
  }

  lemma {:induction false} WholeHere(c: Config, k: string)
    requires Inv(c) && Orderly(c) && k in c.sys.store.sagas
    requires c.sys.store.sagas[k].status == Applied || |c.sys.store.sagas[k].steps| == |SAGA_STEPS|
    ensures |c.sys.store.sagas[k].steps| == |SAGA_STEPS|
    ensures forall row <- c.sys.store.sagas[k].objects :: !row.compensated
    ensures forall ref :: CompensationKey(k, ref) !in c.sys.adapter.results
  {
    hide PositionOk, PositionTidy, RowsReplied, InKind, Lockstep, RowsKnown, Accounted, Truthful, RepliesFit, Keyed, GrantsBound, SentOnce,
         Numbered, Doomed;
    assert SagaOk(c.sys, k);
    assert Tidy(c.sys.store.sagas[k], c.sys.adapter.results, k);
  }

  // ---------- before the ads are submitted ----------

  lemma {:induction false} KindsReplied(results: map<OpKey, Reply>, k: string, n: nat, service: Service)
    requires n <= |SAGA_STEPS| && StepsAnswered(results, k, n)
    ensures |OfService(Live(RepliedRows(results, k, n)), service)| == KindCount(n, service)
  {
    hide Live, OfService;
    if n == 0 {
      NoneLive();
      NoneOfService(service);
    } else {
      var step := SAGA_STEPS[n - 1];
      KindsReplied(results, k, n - 1, service);
      RowsSplit(results, k, n - 1);
      LiveConcat(RepliedRows(results, k, n - 1), RepliedAt(results, k, n - 1));
      OfServiceConcat(Live(RepliedRows(results, k, n - 1)), Live(RepliedAt(results, k, n - 1)), service);
      KindsAt(results, k, n - 1, service);
      hide RepliedRows, RepliedAt, StepsAnswered;
    }
  }

  lemma {:induction false} NoneOfService(service: Service)
    ensures OfService([], service) == []
  {
  }

  lemma {:induction false} KindsAt(results: map<OpKey, Reply>, k: string, n: nat, service: Service)
    requires n < |SAGA_STEPS| && StepsAnswered(results, k, n + 1)
    ensures |OfService(Live(RepliedAt(results, k, n)), service)| == KindCount(n + 1, service) - KindCount(n, service)
  {
    hide Live, OfService;
    var step := SAGA_STEPS[n];
    if IsAdd(step) {
      var created := results[StepKey(k, step)].created;
      LiveOfNew(created, step);
      OneKind(created, ExpectedTypes(step)[0].0, service);
    } else {
      NoneLive();
      NoneOfService(service);
    }
  }

  lemma {:induction false} OneKind(created: seq<Created>, kind: Service, service: Service)
    requires forall i :: 0 <= i < |created| ==> created[i].ref.service == kind
    ensures |OfService(created, service)| == if service == kind then |created| else 0
  {
    if created != [] {
      OneKind(created[1..], kind, service);
    }
  }

  lemma NoneCompensated(objects: seq<ObjectRow>)
    requires forall row <- objects :: !row.compensated
    ensures AsRegistered(objects) == objects
  {
    assert forall i :: 0 <= i < |objects| ==> objects[i] in objects;
  }

  /** While nothing was deleted, a saga at rest has exactly the planned objects of its completed steps, all of them live. */
  lemma {:induction false} LivePlanned(c: Config, plan: Plan)
    requires Inv(c) && Orderly(c) && AtRest(c.sys, plan) && |Record(c.sys, plan).steps| < 5
    ensures forall service :: |LiveRefs(c.sys, plan, service)| == KindCount(|Record(c.sys, plan).steps|, service)
  {
    hide SystemOk, PositionOk, PositionTidy, NothingPending, Shaped, Lockstep, RowsKnown, Accounted, Truthful, ReplyFits, InKind, Live,
         OfService, AsRegistered, RepliedRows;
    var k, record, results := plan.request.execution, Record(c.sys, plan), c.sys.adapter.results;
    TidyOf(c, plan);
    SagaParts(c.sys, plan);
    assert !DeleteMade(results, k);
    NoneCompensated(record.objects);
    forall service ensures |LiveRefs(c.sys, plan, service)| == KindCount(|record.steps|, service) {
      KindsReplied(results, k, |record.steps|, service);
    }
  }

  /**
   * In every run, up to the submission of the ads, the next write of a saga at rest can be built, and it is the operation
   * the stored plan expects: no lookup among the created objects fails, and moderation is never asked for no ads.
   */
  lemma {:induction false} NextWriteIsPlanned(first: Config, events: seq<Event>, plan: Plan)
    requires Initial(first) && AtRest(RunEvents(first, events).sys, plan) && |Record(RunEvents(first, events).sys, plan).steps| < 5
    ensures var record := Record(RunEvents(first, events).sys, plan);
            var built := HandlerRequest(plan, Live(record.objects), SAGA_STEPS[|record.steps|]);
            built.Ok? && ExpectedRequest(record, SAGA_STEPS[|record.steps|]) == built
  {
    hide RunEvents, Initial, Inv, Orderly, AtRest, Live, OfService, ExpectedRequest;
    Reached(first, events);
    RestRuns(RunEvents(first, events).sys, plan);
    LivePlanned(RunEvents(first, events), plan);
    var record := Record(RunEvents(first, events).sys, plan);
    assert forall service :: LiveRefs(RunEvents(first, events).sys, plan, service) == OfService(Live(record.objects), service);
    HandlerMatchesPlan(record, SAGA_STEPS[|record.steps|]);
  }

  /** So until then a saga at rest is stuck exactly when it waits to submit its ads and one of them is no draft any more. */
  lemma {:induction false} EarlyStuckWhen(first: Config, events: seq<Event>, plan: Plan)
    requires Initial(first) && AtRest(RunEvents(first, events).sys, plan) && |Record(RunEvents(first, events).sys, plan).steps| < 5
    ensures var sys := RunEvents(first, events).sys;
            && (Stuck(sys, plan) <==> CalmStuck(sys, plan))
            && (Stuck(sys, plan) <==>
                  |Record(sys, plan).steps| == 4
                  && exists ad <- LiveRefs(sys, plan, Ads) :: ad !in sys.adapter.objects || sys.adapter.objects[ad].state != Draft)
  {
    hide RunEvents, Initial, Inv, Orderly, AtRest, Live, OfService, ExpectedRequest, Stuck, CalmStuck, Owned;
    var sys := RunEvents(first, events).sys;
    NextWriteIsPlanned(first, events, plan);
    RestRuns(sys, plan);
    RestStuckWhen(sys, plan);
    if |Record(sys, plan).steps| == 4 {
      SubmitRefusedWhen(sys, plan);
    }
  }

  lemma {:induction false} SubmitRefusedWhen(sys: System, plan: Plan)
    requires Loaded(sys.store, plan) && HandlerRequest(plan, Live(Record(sys, plan).objects), ModerationSubmit).Ok?
    ensures WriteRefused(sys, plan, ModerationSubmit) <==>
              exists ad <- LiveRefs(sys, plan, Ads) :: ad !in sys.adapter.objects || sys.adapter.objects[ad].state != Draft
  {
    hide Live, OfService, Owned;
    LiveRefsOwned(sys, plan, Ads);
    var ids := IdsOf(HandlerRequest(plan, Live(Record(sys, plan).objects), ModerationSubmit).value.payload);
    assert ids == LiveRefs(sys, plan, Ads);
    if ad :| ad in ids && (ad !in sys.adapter.objects || sys.adapter.objects[ad].state != Draft) {
      assert !StateAllows(sys, plan.request.run, ad, {Draft});
    }
  }

  // ---------- after an object was deleted ----------

  /** The moderation readback completes. */
  predicate ModerationPasses(sys: System, plan: Plan)
    requires Loaded(sys.store, plan)
  {
    CanRead(sys, plan, Ads) && forall ad <- LiveRefs(sys, plan, Ads) :: sys.adapter.objects[ad].state == Moderation
  }

  /** The launch completes. */
  predicate LaunchPasses(sys: System, plan: Plan)
    requires Loaded(sys.store, plan)
  {
    var campaigns := LiveRefs(sys, plan, Campaigns);
    |campaigns| == 1 && campaigns[0] in sys.adapter.objects && sys.adapter.objects[campaigns[0]].state == Suspended
  }

  lemma {:induction false} ModerationDoneWhen(sys: System, plan: Plan)
    requires AtRest(sys, plan) && |Record(sys, plan).steps| == 5
    ensures var r := RunStep(CALM, sys, plan, ModerationReadback);
            (r.1.Done? <==> ModerationPasses(sys, plan)) && (r.1.Done? ==> r.0.adapter.objects == sys.adapter.objects)
  {
    hide SystemOk, NothingPending, BeginStep, Read, CloseStep, Owned, LiveRefs;
    AtRestBegins(sys, plan);
    ReadSeen(sys, sys, plan, Ads);
    if CanRead(sys, plan, Ads) {
      var ads := LiveRefs(sys, plan, Ads);
      LiveRefsOwned(sys, plan, Ads);
      CalmReads(sys, plan.request.run, Ads, ads);
      var read := Read(CALM, sys, plan.request.run, Ads, ads);
      CloseMoves(read.0, plan, ModerationReadback, States(StatesOf(read.1.reply.readback)));
      CloseKeepsAdapter(read.0, plan, ModerationReadback, States(StatesOf(read.1.reply.readback)));
      SeenIn(read.1.reply.readback, ads, sys.adapter.objects);
    }
  }

  lemma SeenIn(readback: seq<Seen>, ads: seq<ObjectRef>, objects: map<ObjectRef, DirectObject>)
    requires |readback| == |ads|
    requires forall i :: 0 <= i < |ads| ==> ads[i] in objects && readback[i] == Seen(ads[i], objects[ads[i]])
    ensures AllIn(readback, Moderation) <==> forall ad <- ads :: objects[ad].state == Moderation
  {
    forall ad | ad in ads ensures exists seen :: seen in readback && seen.item == objects[ad] {
      var i :| 0 <= i < |ads| && ads[i] == ad;
      assert readback[i] in readback;
    }
  }

  lemma {:induction false} LaunchDoneWhen(sys: System, plan: Plan)
    requires AtRest(sys, plan) && |Record(sys, plan).steps| == 6
    ensures var r := RunStep(CALM, sys, plan, CampaignLaunch);
            && (r.1.Done? <==> LaunchPasses(sys, plan))
            && (r.1.Done? ==> forall campaign <- LiveRefs(sys, plan, Campaigns) ::
                  campaign in r.0.adapter.objects && r.0.adapter.objects[campaign].state == On)
  {
    hide AtRest, RunStep, WriteRefused, Live, OfService;
    RestRuns(sys, plan);
    LaunchRefusedWhen(sys, plan);
    if WriteRefused(sys, plan, CampaignLaunch) {
      MoveRaises(CALM, sys, plan, CampaignLaunch);
    } else {
      MoveGoes(sys, plan);
    }
  }

  lemma {:induction false} LaunchRefusedWhen(sys: System, plan: Plan)
    requires Loaded(sys.store, plan)
    ensures WriteRefused(sys, plan, CampaignLaunch) <==> !LaunchPasses(sys, plan)
  {
    hide Live, OfService, Owned;
    LiveRefsOwned(sys, plan, Campaigns);
    var campaigns := LiveRefs(sys, plan, Campaigns);
    if |campaigns| == 1 {
      assert IdsOf(IdPayload(campaigns[0])) == [campaigns[0]];
      assert campaigns[0] in [campaigns[0]];
    }
  }

  /** The pending row of a saga, and how it is answered. */
  lemma {:induction false} PendingFacts(c: Config, plan: Plan)
    requires Inv(c) && Orderly(c) && Running(c.sys.store, plan) && !NothingPending(Record(c.sys, plan))
    ensures var record, n := Record(c.sys, plan), |Record(c.sys, plan).steps|;
            && n < |SAGA_STEPS| && IsWrite(SAGA_STEPS[n]) && record.dispatches != []
            && FirstPending(record.dispatches) == Some(Last(record.dispatches))
            && Last(record.dispatches).step == SAGA_STEPS[n]
            && Last(record.dispatches).request.key == StepKey(plan.request.execution, SAGA_STEPS[n])
            && IsPending(record.dispatches, SAGA_STEPS[n])
            && (StepKey(plan.request.execution, SAGA_STEPS[n]) in c.sys.adapter.results ==>
                  var reply := c.sys.adapter.results[StepKey(plan.request.execution, SAGA_STEPS[n])];
                  var request := Last(record.dispatches).request;
                  reply.service == request.service && reply.verb == request.verb && ReplyFits(reply, SAGA_STEPS[n]))
  {
    hide SystemOk, PositionOk, PositionTidy, RowsReplied, DeletesMarked, DeleteMade, FarEnough, Lockstep, RowsKnown, Accounted, Truthful,
         FirstPending, IsPending, ReplyFits;
    SagaParts(c.sys, plan);
    TidyOf(c, plan);
    PendingFirst(Record(c.sys, plan));
    LastIsNext(Record(c.sys, plan));
    OrdinalStep(Last(Record(c.sys, plan).dispatches).step);
    RowFacts(Record(c.sys, plan));
    assert Last(Record(c.sys, plan).dispatches) in Record(c.sys, plan).dispatches;
  }

  lemma RowFacts(record: SagaRecord)
    requires Shaped(record) && !NothingPending(record) && record.dispatches != []
    ensures Last(record.dispatches).request.key == StepKey(record.plan.request.execution, Last(record.dispatches).step)
  {
  }

  lemma RegisteredIsAdd(record: SagaRecord, results: map<OpKey, Reply>, k: string, n: nat)
    requires RowsReplied(record, results, k) && n == |record.steps| < |SAGA_STEPS| && HasObjectsOf(record.objects, SAGA_STEPS[n])
    ensures IsAdd(SAGA_STEPS[n])
  {
    if !IsAdd(SAGA_STEPS[n]) {
      NothingReplied(results, k, n);
      RegisteredRows(record, results, k, n);
      var row :| row in record.objects && row.step == SAGA_STEPS[n];
      var i :| 0 <= i < |record.objects| && record.objects[i] == row;
      AsRegisteredRow(record.objects, i);
      RowsStepsBelow(results, k, n);
      StepOrdinal(n);
    }
  }

  lemma CollisionRejected(st: Store, execution: string, step: Step, created: seq<Created>)
    requires execution in st.sagas && created != [] && created[0].ref in st.index
    ensures Register(st, execution, step, created).1.Rejected?
  {
    assert created[0] in created && created[0].ref in RefsOf(created) * st.index;
  }

  /** The objects of a doomed step that was answered are registered already, and cannot be registered again. */
  lemma {:induction false} DoomedRejected(c: Config, plan: Plan)
    requires Inv(c) && Orderly(c) && Running(c.sys.store, plan)
    requires Doomed(Record(c.sys, plan), c.sys.adapter.results, plan.request.execution)
    requires StepKey(plan.request.execution, SAGA_STEPS[|Record(c.sys, plan).steps|]) in c.sys.adapter.results
    ensures var step := SAGA_STEPS[|Record(c.sys, plan).steps|];
            var created := c.sys.adapter.results[StepKey(plan.request.execution, step)].created;
            IsAdd(step) && created != [] && created[0].ref in c.sys.store.index
  {
    hide SystemOk, PositionOk, PositionTidy, DeleteMade, FarEnough, Lockstep, Accounted, Truthful, NothingPending, AsRegistered,
         RepliedRows, DeletesMarked, InKind, HasObjectsOf, RepliesFit, ReplyFits;
    var record, results, k, n := Record(c.sys, plan), c.sys.adapter.results, plan.request.execution, |Record(c.sys, plan).steps|;
    SagaParts(c.sys, plan);
    TidyOf(c, plan);
    RegisteredIsAdd(record, results, k, n);
    RegisteredRows(record, results, k, n);
    StepOrdinal(n);
    PendingFacts(c, plan);
    CreatesSome(results[StepKey(k, SAGA_STEPS[n])], SAGA_STEPS[n]);
    RegisteredInIndex(record, results, k, c.sys.store.index, SAGA_STEPS[n]);
  }

  lemma CreatesSome(reply: Reply, step: Step)
    requires IsAdd(step) && ReplyFits(reply, step)
    ensures reply.created != []
  {
  }

  /** A doomed step is never completed by reconciliation. */
  lemma {:induction false} DoomedStays(c: Config, plan: Plan)
    requires Inv(c) && Orderly(c) && Running(c.sys.store, plan)
    requires Doomed(Record(c.sys, plan), c.sys.adapter.results, plan.request.execution)
    ensures !Reconcile(c.sys, plan).1.Resolved?
  {
    hide Inv, Orderly, NothingPending, FirstPending, IsPending, HasObjectsOf, ResolveWith, Settle, ReplyFits;
    PendingFacts(c, plan);
    var step := SAGA_STEPS[|Record(c.sys, plan).steps|];
    if StepKey(plan.request.execution, step) in c.sys.adapter.results {
      DoomedRejected(c, plan);
      CollidingAdd(c.sys, plan, step, c.sys.adapter.results[StepKey(plan.request.execution, step)]);
    }
  }

  lemma CollidingAdd(sys: System, plan: Plan, step: Step, reply: Reply)
    requires Running(sys.store, plan) && IsAdd(step) && reply.created != [] && reply.created[0].ref in sys.store.index
    ensures !ResolveWith(sys, plan, step, reply).1.Resolved?
  {
    hide Register, CloseStep, Settle;
    CollisionRejected(sys.store, plan.request.execution, step, reply.created);
    if step == CampaignAdd && ConsumeAuthority(sys.store, plan).1.Ok? {
      ConsumeKeepsIndex(sys.store, plan);
      CollisionRejected(ConsumeAuthority(sys.store, plan).0, plan.request.execution, step, reply.created);
    }
  }

  lemma ConsumeKeepsIndex(st: Store, plan: Plan)
    requires Running(st, plan)
    ensures Running(ConsumeAuthority(st, plan).0, plan) && ConsumeAuthority(st, plan).0.index == st.index
  {
  }

  lemma LaunchResolves(sys: System, plan: Plan, reply: Reply)
    requires Running(sys.store, plan) && |Record(sys, plan).steps| == 6 && IsPending(Record(sys, plan).dispatches, CampaignLaunch)
    requires ReplyFits(reply, CampaignLaunch)
    ensures ResolveWith(sys, plan, CampaignLaunch, reply).1.Resolved?
  {
    hide CloseStep, IsPending;
    CloseMoves(sys, plan, CampaignLaunch, States([On]));
  }

  /** A pending step of a saga that lost an object completes only when it is the launch, and the launch was answered. */
  lemma {:induction false} PendingAfterDelete(c: Config, plan: Plan)
    requires Inv(c) && Orderly(c) && Running(c.sys.store, plan) && !NothingPending(Record(c.sys, plan))
    requires FarEnough(Record(c.sys, plan), c.sys.adapter.results, plan.request.execution)
    ensures Reconcile(c.sys, plan).1.Resolved? <==>
              |Record(c.sys, plan).steps| == 6 && StepKey(plan.request.execution, CampaignLaunch) in c.sys.adapter.results
  {
    hide Inv, Orderly, NothingPending, FirstPending, IsPending, ResolveWith, Settle, Doomed, ReplyFits;
    PendingFacts(c, plan);
    if Doomed(Record(c.sys, plan), c.sys.adapter.results, plan.request.execution) {
      DoomedStays(c, plan);
      DoomedIsEarly(c, plan);
    } else if StepKey(plan.request.execution, CampaignLaunch) in c.sys.adapter.results {
      LaunchResolves(c.sys, plan, c.sys.adapter.results[StepKey(plan.request.execution, CampaignLaunch)]);
    }
  }

  lemma {:induction false} DoomedIsEarly(c: Config, plan: Plan)
    requires Inv(c) && Orderly(c) && Running(c.sys.store, plan)
    requires Doomed(Record(c.sys, plan), c.sys.adapter.results, plan.request.execution)
    ensures |Record(c.sys, plan).steps| == 6 ==> StepKey(plan.request.execution, CampaignLaunch) !in c.sys.adapter.results
  {
    hide Inv, Orderly, NothingPending, HasObjectsOf;
    if StepKey(plan.request.execution, SAGA_STEPS[|Record(c.sys, plan).steps|]) in c.sys.adapter.results {
      DoomedRejected(c, plan);
    }
  }

  /**
   * Compensation never stops a saga for good: in every run, when an object of a running saga was deleted, its next
   * fault-free step completes exactly when the remaining ads are all in moderation, or the one remaining campaign can be
   * launched; and a pending step is completed by reconciliation exactly when it is an answered launch.
   */
  lemma {:induction false} ForwardAfterDelete(first: Config, events: seq<Event>, plan: Plan)
    requires Initial(first) && Running(RunEvents(first, events).sys.store, plan)
    requires DeleteMade(RunEvents(first, events).sys.adapter.results, plan.request.execution)
    ensures var sys := RunEvents(first, events).sys;
            var record, n := Record(sys, plan), |Record(sys, plan).steps|;
            && n < |SAGA_STEPS|
            && (NothingPending(record) ==>
                  (RunStep(CALM, sys, plan, SAGA_STEPS[n]).1.Done? <==>
                     (n == 5 && ModerationPasses(sys, plan)) || (n == 6 && LaunchPasses(sys, plan))))
            && (!NothingPending(record) ==>
                  (Reconcile(sys, plan).1.Resolved? <==> n == 6 && StepKey(plan.request.execution, CampaignLaunch) in sys.adapter.results))
  {
    hide RunEvents, Initial, Inv, Orderly, NothingPending, RunStep, Reconcile, ModerationPasses, LaunchPasses, DeleteMade, SystemOk;
    Reached(first, events);
    ForwardHere(RunEvents(first, events), plan);
  }

  lemma {:induction false} ForwardHere(c: Config, plan: Plan)
    requires Inv(c) && Orderly(c) && Running(c.sys.store, plan) && DeleteMade(c.sys.adapter.results, plan.request.execution)
    ensures var n := |Record(c.sys, plan).steps|;
            && n < |SAGA_STEPS|
            && (NothingPending(Record(c.sys, plan)) ==>
                  (RunStep(CALM, c.sys, plan, SAGA_STEPS[n]).1.Done? <==>
                     (n == 5 && ModerationPasses(c.sys, plan)) || (n == 6 && LaunchPasses(c.sys, plan))))
            && (!NothingPending(Record(c.sys, plan)) ==>
                  (Reconcile(c.sys, plan).1.Resolved? <==>
                     n == 6 && StepKey(plan.request.execution, CampaignLaunch) in c.sys.adapter.results))
  {
    hide Inv, Orderly, NothingPending, RunStep, Reconcile, ModerationPasses, LaunchPasses, DeleteMade, FarEnough, SystemOk;
    DeletedIsFar(c, plan);
    if !NothingPending(Record(c.sys, plan)) {
      PendingAfterDelete(c, plan);
    } else {
      InvSystem(c);
      RestAfterDelete(c, plan);
    }
  }

  lemma DeletedIsFar(c: Config, plan: Plan)
    requires Orderly(c) && Loaded(c.sys.store, plan) && DeleteMade(c.sys.adapter.results, plan.request.execution)
    ensures FarEnough(Record(c.sys, plan), c.sys.adapter.results, plan.request.execution)
    ensures |Record(c.sys, plan).steps| < |SAGA_STEPS|
    ensures NothingPending(Record(c.sys, plan)) ==> |Record(c.sys, plan).steps| >= 5
  {
    hide Orderly, RowsReplied, DeletesMarked, InKind, DeleteMade;
    TidyOf(c, plan);
  }

  lemma InvSystem(c: Config)
    requires Inv(c)
    ensures SystemOk(c.sys)
  {
    hide SystemOk;
  }

  lemma {:induction false} RestAfterDelete(c: Config, plan: Plan)
    requires Orderly(c) && AtRest(c.sys, plan) && DeleteMade(c.sys.adapter.results, plan.request.execution)
    requires 5 <= |Record(c.sys, plan).steps| < |SAGA_STEPS|
    ensures var sys, n := c.sys, |Record(c.sys, plan).steps|;
            RunStep(CALM, sys, plan, SAGA_STEPS[n]).1.Done? <==>
              (n == 5 && ModerationPasses(sys, plan)) || (n == 6 && LaunchPasses(sys, plan))
  {
    hide Orderly, RunStep, ModerationPasses, LaunchPasses, SystemOk, NothingPending, DeleteMade, FullReadbackStep, Tidy;
    var n := |Record(c.sys, plan).steps|;
    if n == 5 {
      ModerationDoneWhen(c.sys, plan);
    } else if n == 6 {
      LaunchDoneWhen(c.sys, plan);
    } else {
      ReadStepEnds(CALM, c.sys, plan, FullReadback);
      TidyOf(c, plan);
      if FullReadbackStep(CALM, c.sys, plan).1.Done? {
        LastReadbackMeansWhole(CALM, c.sys, plan);
      }
    }
  }

  /**
   * In every run a saga with a pending dispatch is stuck exactly when it is a later add step whose answer is remembered and
   * cannot be registered: no other answer is refused.
   */
  lemma {:induction false} PendingStuckInRuns(first: Config, events: seq<Event>, plan: Plan)
    requires Initial(first) && Running(RunEvents(first, events).sys.store, plan)
    requires FirstPending(Record(RunEvents(first, events).sys, plan).dispatches).Some?
    ensures var sys := RunEvents(first, events).sys;
            var pending := FirstPending(Record(sys, plan).dispatches).value;
            Stuck(sys, plan) <==>
              && IsAdd(pending.step) && pending.step != CampaignAdd && pending.request.key in sys.adapter.results
              && Register(sys.store, plan.request.execution, pending.step, sys.adapter.results[pending.request.key].created).1.Rejected?
  {
    hide RunEvents, Initial, Inv, Orderly, NothingPending, FirstPending, Stuck, CalmStuck, Register, ReplyFits, IsPending;
    Reached(first, events);
    var c := RunEvents(first, events);
    InvSystem(c);
    PendingStuckWhen(c.sys, plan);
    PendingOnlyIf(c, plan);
    PendingFacts(c, plan);
  }

  lemma PendingOnlyIf(c: Config, plan: Plan)
    requires Inv(c) && Running(c.sys.store, plan) && FirstPending(Record(c.sys, plan).dispatches).Some?
    ensures !NothingPending(Record(c.sys, plan))
  {
    hide SystemOk, PositionOk, FirstPending, NothingPending, Shaped, Lockstep, RowsKnown, Accounted, Truthful, RepliesFit;
    SagaParts(c.sys, plan);
    PendingFirst(Record(c.sys, plan));
  }

  // ---------- a run that goes forward after a delete ----------

  lemma {:induction false} OfServiceDistinct(created: seq<Created>, service: Service)
    requires Distinct(CreatedRefs(created))
    ensures Distinct(OfService(created, service))
  {
    if created != [] {
      DistinctTail(CreatedRefs(created));
      assert CreatedRefs(created)[1..] == CreatedRefs(created[1..]);
      OfServiceDistinct(created[1..], service);
      OfServiceIn(created[1..], service);
      assert forall i :: 0 <= i < |created[1..]| ==> created[1..][i].ref == CreatedRefs(created[1..])[i];
      hide OfService;
      OfServiceStep(created, service);
      DistinctCons(created[0].ref, OfService(created[1..], service));
    }
  }

  lemma {:induction false} OfServiceStep(created: seq<Created>, service: Service)
    requires created != []
    ensures OfService(created, service)
         == (if created[0].ref.service == service then [created[0].ref] else []) + OfService(created[1..], service)
  {
  }

  /** The keyword is gone, and everything else of the refused saga is as it was, except that the site accepts the ads after all. */
  ghost predicate LostKeyword(sys: System, plan: Plan, refs: Refs) {
    && AtRest(sys, plan) && |Record(sys, plan).steps| == 5 && GoodRefs(refs)
    && (forall ref :: OwnsLive(sys, plan, ref) <==> ref in Built(refs) && ref != refs.keyword)
    && refs.campaign in sys.adapter.objects && sys.adapter.objects[refs.campaign].state == Suspended
    && refs.adA in sys.adapter.objects && sys.adapter.objects[refs.adA].state == Moderation
    && refs.adB in sys.adapter.objects && sys.adapter.objects[refs.adB].state == Moderation
    && CompensationKey(plan.request.execution, refs.keyword) in sys.adapter.results
  }

  lemma {:induction false} LostKeywordPasses(sys: System, plan: Plan, refs: Refs)
    requires LostKeyword(sys, plan, refs)
    ensures ModerationPasses(sys, plan) && LiveRefs(sys, plan, Campaigns) == [refs.campaign]
  {
    hide SystemOk, NothingPending, OwnsLive, Live, OfService, LiveObjects;
    LiveList(sys, plan);
    LiveOnly(sys, plan, refs, Ads);
    LiveOnly(sys, plan, refs, Campaigns);
    OnlyOne(LiveRefs(sys, plan, Campaigns), refs.campaign);
  }

  lemma OnlyOne(refs: seq<ObjectRef>, ref: ObjectRef)
    requires Distinct(refs) && ref in refs && forall other <- refs :: other == ref
    ensures refs == [ref]
  {
    if |refs| >= 2 {
      TwoDiffer(refs, ref);
    }
  }

  lemma TwoDiffer(refs: seq<ObjectRef>, ref: ObjectRef)
    requires Distinct(refs) && |refs| >= 2
    ensures exists other :: other in refs && other != ref
  {
    assert refs[0] in refs && refs[1] in refs && refs[0] != refs[1];
  }

  lemma {:induction false} LiveOnly(sys: System, plan: Plan, refs: Refs, service: Service)
    requires Loaded(sys.store, plan) && Distinct(LiveObjects(sys, plan)) && GoodRefs(refs)
    requires forall ref :: OwnsLive(sys, plan, ref) <==> ref in Built(refs) && ref != refs.keyword
    ensures forall ref :: ref in LiveRefs(sys, plan, service) <==> ref in Built(refs) && ref != refs.keyword && ref.service == service
    ensures Distinct(LiveRefs(sys, plan, service))
  {
    hide OwnsLive, Live, OfService, Distinct;
    var live := Live(Record(sys, plan).objects);
    OfServiceDistinct(live, service);
    LiveRefsOwned(sys, plan, service);
    forall ref | ref in Built(refs) && ref != refs.keyword && ref.service == service ensures ref in LiveRefs(sys, plan, service) {
      LiveIsOwned(sys, plan, ref);
      var i :| 0 <= i < |live| && CreatedRefs(live)[i] == ref;
      OfServiceHas(live, live[i]);
    }
    forall ref | ref in LiveRefs(sys, plan, service) ensures OwnsLive(sys, plan, ref) {
      OwnedIsLive(sys, plan, ref);
    }
  }

  lemma OwnedIsLive(sys: System, plan: Plan, ref: ObjectRef)
    requires Loaded(sys.store, plan)
    ensures Owned(sys.store, plan.request.run, ref) <==> OwnsLive(sys, plan, ref)
  {
    hide Owns;
  }

  /** From the refused readback to the end of the keyword's compensation, a crash, and a change of mind on the site. */
  lemma {:induction false} LosesKeyword(c: Config, plan: Plan, refs: Refs) returns (events: seq<Event>)
    requires Inv(c) && Undoable(c.sys, plan, refs)
    requires c.at == Compensating(plan, Reversed(Built(refs)), 0, false, "MODERATION_REQUEST_NOT_ACCEPTED")
    ensures var d := RunEvents(c, events); d.at == Working(plan) && LostKeyword(d.sys, plan, refs)
  {
    hide RunEvents, Next, Inv, Built, CompensateAll, Undoes, Owns, OwnsRest, DeleteAllowed, LiveObjects, SystemOk, Shaped, NothingPending;
    var rest := [refs.adB, refs.adA, refs.group, refs.campaign];
    assert [refs.keyword] + rest == Reversed(Built(refs)) by { BuiltBackwards(refs); }
    var deletes := DeletesAreARun(CALM, c, plan, [refs.keyword], rest, 0, "MODERATION_REQUEST_NOT_ACCEPTED");
    var d := RunEvents(c, deletes);
    RunInv(c, deletes);
    KeywordDeleted(c, d, plan, refs);
    var objects := d.sys.adapter.objects[refs.adA := d.sys.adapter.objects[refs.adA].(state := Moderation)];
    RunThen(c, deletes, Crash);
    RunThen(c, deletes + [Crash], Drift(objects));
    RunThen(c, deletes + [Crash] + [Drift(objects)], Begin(plan, 0, ANYBODY));
    events := deletes + [Crash] + [Drift(objects)] + [Begin(plan, 0, ANYBODY)];
    RunInv(c, events);
    ResumesAt(d, plan, objects);
    InvAtRest(RunEvents(c, events), plan);
  }

  lemma {:induction false} KeywordDeleted(c: Config, d: Config, plan: Plan, refs: Refs)
    requires Inv(d) && Undoable(c.sys, plan, refs) && Running(c.sys.store, plan)
    requires d.sys == CompensateAll(CALM, c.sys, plan, [refs.keyword]).0
    ensures AtRest(d.sys, plan) && |Record(d.sys, plan).steps| == 5
    ensures forall ref :: OwnsLive(d.sys, plan, ref) <==> ref in Built(refs) && ref != refs.keyword
    ensures forall ref <- [refs.campaign, refs.adA, refs.adB] ::
              ref in c.sys.adapter.objects && ref in d.sys.adapter.objects && d.sys.adapter.objects[ref] == c.sys.adapter.objects[ref]
    ensures CompensationKey(plan.request.execution, refs.keyword) in d.sys.adapter.results
  {
    hide SystemOk, CompensateAll, Undoes, OwnsLive, LiveObjects, Shaped, PositionOk, DeleteAllowed;
    var todo := [refs.keyword];
    LiveList(c.sys, plan);
    BuiltMembers(refs);
    OneIsDistinct(refs.keyword);
    DeletesExactly(CALM, c.sys, plan, todo);
    CompensationFrame(CALM, c.sys, plan, todo, refs.campaign);
    CompensationFrame(CALM, c.sys, plan, todo, refs.adA);
    CompensationFrame(CALM, c.sys, plan, todo, refs.adB);
    CalmUndoes(c.sys, plan, refs, refs.keyword);
    DeleteRemembered(c.sys, plan, refs.keyword);
    forall ref ensures OwnsLive(d.sys, plan, ref) <==> ref in Built(refs) && ref != refs.keyword {
      LiveIsOwned(c.sys, plan, ref);
      assert ref in todo <==> ref == refs.keyword;
    }
  }

  lemma OneIsDistinct(ref: ObjectRef)
    ensures Distinct([ref])
  {
  }

  lemma BuiltMembers(refs: Refs)
    ensures forall ref <- [refs.campaign, refs.adA, refs.adB, refs.keyword] :: ref in Built(refs)
  {
    assert Built(refs)[0] == refs.campaign && Built(refs)[2] == refs.adA && Built(refs)[3] == refs.adB && Built(refs)[4] == refs.keyword;
  }

  /** A delete that succeeds is remembered. */
  lemma {:induction false} DeleteRemembered(sys: System, plan: Plan, ref: ObjectRef)
    requires SystemOk(sys) && Running(sys.store, plan) && DeleteAllowed(sys, plan, ref) && Undoes(CALM, sys, plan, ref)
    ensures CompensationKey(plan.request.execution, ref) in CompensateAll(CALM, sys, plan, [ref]).0.adapter.results
  {
    hide SystemOk, Send, Undoes, Grows, Shaped, Lockstep, RowsKnown, Accounted, Truthful, RepliesFit, Owned;
    SagaParts(sys, plan);
    OneDelete(CALM, sys, plan, ref);
    DeleteGrows(CALM, sys, plan, ref);
    assert [ref][1..] == [];
  }

  lemma {:induction false} ResumesAt(c: Config, plan: Plan, objects: map<ObjectRef, DirectObject>)
    requires AtRest(c.sys, plan) && objects.Keys == c.sys.adapter.objects.Keys
    ensures Next(Next(Next(c, Crash), Drift(objects)), Begin(plan, 0, ANYBODY))
         == Config(c.sys.(adapter := c.sys.adapter.(objects := objects)), Working(plan))
  {
    hide SystemOk, FirstPending, Shaped, Lockstep, RowsKnown, Accounted, Truthful, RepliesFit;
    SagaParts(c.sys, plan);
    PendingFirst(Record(c.sys, plan));
    assert c.sys.store == c.sys.(store := c.sys.store).store;
  }

  /**
   * Such a run: the keyword of a refused saga is deleted, the process dies, the site accepts the ads after all, and the next
   * calls moderate and launch the campaign without its keyword. By `AppliedIsWhole` it can never be APPLIED.
   */
  lemma {:induction false} LaunchesAfterDelete(first: Config, plan: Plan)
    returns (events: seq<Event>, campaign: ObjectRef, keyword: ObjectRef)
    requires Initial(first) && Grantable(plan)
    ensures var c := RunEvents(first, events);
            && Running(c.sys.store, plan) && |Record(c.sys, plan).steps| == 7
            && campaign in c.sys.adapter.objects && c.sys.adapter.objects[campaign].state == On
            && keyword.service == Keywords && CompensationKey(plan.request.execution, keyword) in c.sys.adapter.results
            && keyword !in c.sys.adapter.objects
  {
    hide RunEvents, Healthy, Inv, Initial, Grantable, Undoable, Built, LostKeyword, RunStep, AtRest, StepsDone;
    var begun, refs := HealthyAfter(first, plan, 5);
    campaign, keyword := refs.campaign, refs.keyword;
    var c := RunEvents(first, begun);
    var moderated := ReadsRefusal(c, plan, refs);
    RunInv(c, moderated);
    RunConcat(first, begun, moderated);
    var lost := LosesKeyword(RunEvents(c, moderated), plan, refs);
    RunConcat(first, begun + moderated, lost);
    var d := RunEvents(first, begun + moderated + lost);
    var more := LaunchesWithout(d, plan, refs);
    RunInv(RunEvents(c, moderated), lost);
    RunInv(d, more);
    RunConcat(first, begun + moderated + lost, more);
    events := begun + moderated + lost + more;
    GoneForGood(RunEvents(d, more), plan, keyword);
  }

  lemma {:induction false} GoneForGood(c: Config, plan: Plan, keyword: ObjectRef)
    requires Inv(c) && CompensationKey(plan.request.execution, keyword) in c.sys.adapter.results
    ensures keyword !in c.sys.adapter.objects
  {
    hide PositionOk, Keyed, GrantsBound, SentOnce, SagaOk, Numbered;
    DeletedIsGone(c.sys, plan.request.execution, keyword);
  }

  lemma {:induction false} LaunchesWithout(c: Config, plan: Plan, refs: Refs) returns (events: seq<Event>)
    requires c.at == Working(plan) && LostKeyword(c.sys, plan, refs)
    ensures var d := RunEvents(c, events);
            && Running(d.sys.store, plan) && |Record(d.sys, plan).steps| == 7 && refs.keyword.service == Keywords
            && refs.campaign in d.sys.adapter.objects && d.sys.adapter.objects[refs.campaign].state == On
            && CompensationKey(plan.request.execution, refs.keyword) in d.sys.adapter.results
  {
    hide RunEvents, RunStep, SystemOk, NothingPending, OwnsLive, LiveRefs, ModerationPasses;
    LostKeywordPasses(c.sys, plan, refs);
    ModerationDoneWhen(c.sys, plan);
    StepOrdinal(5);
    StepOrdinal(6);
    var moderation := StepIsARun(CALM, c, plan, ModerationReadback);
    StepRests(CALM, c.sys, plan, ModerationReadback);
    ReadStepEnds(CALM, c.sys, plan, ModerationReadback);
    var d := Config(RunStep(CALM, c.sys, plan, ModerationReadback).0, Working(plan));
    SameRows(c.sys, d.sys, plan);
    LaunchDoneWhen(d.sys, plan);
    var launch := StepIsARun(CALM, d, plan, CampaignLaunch);
    StepRests(CALM, d.sys, plan, CampaignLaunch);
    LaunchRemembers(d.sys, plan);
    RunConcat(c, moderation, launch);
    events := moderation + launch;
  }

  lemma SameRows(sys: System, later: System, plan: Plan)
    requires Loaded(sys.store, plan) && Loaded(later.store, plan) && Record(later, plan).objects == Record(sys, plan).objects
    ensures forall service :: LiveRefs(later, plan, service) == LiveRefs(sys, plan, service)
  {
  }

  /** A launch forgets no answer. */
  lemma LaunchRemembers(sys: System, plan: Plan)
    requires Running(sys.store, plan)
    ensures forall key :: key in sys.adapter.results ==> key in RunStep(CALM, sys, plan, CampaignLaunch).0.adapter.results
  {
    hide Invoke, Extends, CloseStep, Live, OfService, StateAllows, CancelClaim, Claim, Owned;
    var request := HandlerRequest(plan, Live(Record(sys, plan).objects), CampaignLaunch);
    if request.Ok? {
      SendKeepsRunning(CALM, sys, plan, request.value);
      InvokeExtends(CALM.faults, sys.adapter, request.value);
      ExtendsGrows(sys.adapter, Invoke(CALM.faults, sys.adapter, request.value).0, request.value.key);
      CloseKeepsAdapter(Send(CALM, sys, request.value).0, plan, CampaignLaunch, States([On]));
    }
  }
}
