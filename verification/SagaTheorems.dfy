/** What holds after every run of the saga machine, in the words the service's design uses. */
module SagaTheorems {
  import opened Basics
  import opened CampaignTypes
  import opened DirectAdapter
  import opened SagaStore
  import opened SagaService
  import opened SagaMachine
  import opened SagaSafety
  import opened SagaInvariant
  import opened SagaRuns

  // ---------- exactly-once creation ----------

  function AddStepOf(service: Service): Step {
    match service
    case Campaigns => CampaignAdd
    case AdGroups => AdGroupAdd
    case Ads => AdsAdd
    case Keywords => KeywordAdd
  }

  /** Every object of one kind the adapter ever created for saga `k`, whether or not it still stands. */
  function CreatedFor(a: Adapter, k: string, service: Service): set<ObjectRef> {
    var key := StepKey(k, AddStepOf(service));
    if key in a.results then RefsOf(a.results[key].created) else {}
  }

  function Planned(service: Service): nat {
    if service == Ads then 2 else 1
  }

  /** An object that was not there at the start was created for some saga the store knows. */
  ghost predicate Sourced(sys: System, start: set<ObjectRef>) {
    forall ref :: ref in sys.adapter.objects ==>
      ref in start || exists k :: k in sys.store.sagas && ref in CreatedFor(sys.adapter, k, ref.service)
  }

  lemma InvokeSource(faults: Faults, a: Adapter, request: DirectRequest, ref: ObjectRef)
    requires ref in Invoke(faults, a, request).0.objects && ref !in a.objects
    ensures request.verb == Add && request.service == ref.service && request.key !in a.results
    ensures var b := Invoke(faults, a, request).0;
            request.key in b.results && ref in RefsOf(b.results[request.key].created)
  {
    hide AddAll, MoveAll, ReadAll, NewContents, NewType, NewState, CreatedOf;
    if request.verb != Add {
      OnlyAddsCreate(faults, a, request, ref);
    } else {
      var contents := NewContents(request.payload);
      AddAllIsFresh(a.objects, LastId(a.sequence, request.service), request.service,
                    NewType(faults.types, request.service, request.payload), NewState(request.service, request.payload), contents);
      var i := ref.number - LastId(a.sequence, request.service) - 1;
      var seen := AddAll(a.objects, LastId(a.sequence, request.service), request.service,
                         NewType(faults.types, request.service, request.payload),
                         NewState(request.service, request.payload), contents).1;
      assert seen[i].ref == ref;
      CreatedHas(seen, i);
    }
  }

  lemma OnlyAddsCreate(faults: Faults, a: Adapter, request: DirectRequest, ref: ObjectRef)
    requires request.verb != Add && ref in Invoke(faults, a, request).0.objects
    ensures ref in a.objects
  {
    hide AddAll, MoveAll, ReadAll, NewContents, NewType, NewState, CreatedOf;
    MoveAllMoves(a.objects, IdsOf(request.payload), Moderation);
    MoveAllMoves(a.objects, IdsOf(request.payload), On);
  }

  lemma CreatedHas(seen: seq<Seen>, i: nat)
    requires i < |seen|
    ensures seen[i].ref in RefsOf(CreatedOf(seen))
  {
    assert CreatedOf(seen)[i] in CreatedOf(seen);
  }

  /** No saga is forgotten, no remembered result changes, and a new object is some saga's. */
  ghost predicate Grows(sys: System, later: System) {
    && sys.store.sagas.Keys <= later.store.sagas.Keys
    && (forall key :: key in sys.adapter.results ==>
          key in later.adapter.results && later.adapter.results[key] == sys.adapter.results[key])
    && (forall ref :: ref in later.adapter.objects ==>
          ref in sys.adapter.objects
          || exists k :: k in later.store.sagas && ref in CreatedFor(later.adapter, k, ref.service))
  }

  lemma GrowsSourced(sys: System, later: System, start: set<ObjectRef>)
    requires Grows(sys, later) && Sourced(sys, start)
    ensures Sourced(later, start)
  {
    forall ref | ref in later.adapter.objects && ref !in start
      ensures exists k :: k in later.store.sagas && ref in CreatedFor(later.adapter, k, ref.service)
    {
      if ref in sys.adapter.objects {
        var k :| k in sys.store.sagas && ref in CreatedFor(sys.adapter, k, ref.service);
        assert ref in CreatedFor(later.adapter, k, ref.service);
      }
    }
  }

  /** A read changes nothing but the call log. */
  lemma ReadFrame(env: Env, sys: System, run: string, service: Service, ids: seq<ObjectRef>)
    ensures var r := Read(env, sys, run, service, ids).0;
            && r.store == sys.store && r.adapter.objects == sys.adapter.objects
            && r.adapter.sequence == sys.adapter.sequence && r.adapter.results == sys.adapter.results
  {
  }

  lemma ReadStepFrame(env: Env, sys: System, plan: Plan, step: Step)
    requires Running(sys.store, plan) && !IsWrite(step)
    ensures var r := RunStep(env, sys, plan, step).0;
            && r.adapter.objects == sys.adapter.objects && r.adapter.results == sys.adapter.results
            && r.store.sagas.Keys == sys.store.sagas.Keys
  {
    hide Read, Live, OfService, ReadbackMatches, AllIn, StatesOf, SeenRefs, BeginStep, CompleteRecord;
    var run := plan.request.run;
    if step == ModerationReadback {
      ReadFrame(env, sys, run, Ads, LiveRefs(sys, plan, Ads));
    } else {
      ReadFrame(env, sys, run, Campaigns, LiveRefs(sys, plan, Campaigns));
      var one := Read(env, sys, run, Campaigns, LiveRefs(sys, plan, Campaigns)).0;
      ReadFrame(env, one, run, AdGroups, LiveRefs(sys, plan, AdGroups));
      var two := Read(env, one, run, AdGroups, LiveRefs(sys, plan, AdGroups)).0;
      ReadFrame(env, two, run, Ads, LiveRefs(sys, plan, Ads));
      var three := Read(env, two, run, Ads, LiveRefs(sys, plan, Ads)).0;
      ReadFrame(env, three, run, Keywords, LiveRefs(sys, plan, Keywords));
    }
  }

  lemma SendGrows(c: Config, faults: Faults)
    requires Inv(c) && c.at.Claimed?
    ensures Grows(c.sys, DoSend(c, faults).sys)
  {
    hide SystemOk, Invoke, Times, CreatedFor;
    var plan, request := c.at.plan, c.at.request;
    InvokeExtends(faults, c.sys.adapter, request);
    var later := DoSend(c, faults).sys;
    forall ref | ref in later.adapter.objects && ref !in c.sys.adapter.objects
      ensures ref in CreatedFor(later.adapter, plan.request.execution, ref.service)
    {
      InvokeSource(faults, c.sys.adapter, request, ref);
      NewIsCreatedFor(later.adapter, plan, c.at.step, request, ref);
    }
  }

  lemma NewIsCreatedFor(b: Adapter, plan: Plan, step: Step, request: DirectRequest, ref: ObjectRef)
    requires RequestFits(plan, step, request) && request.verb == Add && request.service == ref.service
    requires request.key in b.results && ref in RefsOf(b.results[request.key].created)
    ensures ref in CreatedFor(b, plan.request.execution, ref.service)
  {
    assert ExpectedTypes(step)[0].0 == request.service;
    assert step == AddStepOf(ref.service);
  }

  lemma DeleteGrows(c: Config, env: Env)
    requires Inv(c) && c.at.Compensating?
    ensures Grows(c.sys, DoDelete(c, env).sys)
  {
    hide SystemOk, Send, AllOwned, Listed, Owned;
    if c.at.todo != [] && DeleteAllowed(c.sys, c.at.plan, c.at.todo[0]) {
      var plan, ref := c.at.plan, c.at.todo[0];
      DeleteKeeps(env, c.sys, plan, ref);
      CompensationFrame(env, c.sys, plan, ref);
    }
  }

  lemma CompensationFrame(env: Env, sys: System, plan: Plan, ref: ObjectRef)
    ensures var r := Send(env, sys, CompensationRequest(plan, ref)).0;
            && (forall key :: key in sys.adapter.results ==>
                  key in r.adapter.results && r.adapter.results[key] == sys.adapter.results[key])
            && (forall ref :: ref in r.adapter.objects ==> ref in sys.adapter.objects)
  {
    hide Claim, CancelClaim, Owned;
  }

  lemma StepGrows(c: Config, event: Event)
    requires Inv(c)
    ensures Grows(c.sys, Next(c, event).sys)
  {
    hide *;
    if event.SendWrite? && c.at.Claimed? {
      NextSend(c, event.faults);
      SendGrows(c, event.faults);
    } else if event.DeleteNext? && c.at.Compensating? {
      NextDelete(c, event.env);
      DeleteGrows(c, event.env);
    } else {
      OtherGrows(c, event);
    }
  }

  lemma NextSend(c: Config, faults: Faults)
    ensures Next(c, SendWrite(faults)) == DoSend(c, faults)
  {
  }

  lemma NextDelete(c: Config, env: Env)
    ensures Next(c, DeleteNext(env)) == DoDelete(c, env)
  {
  }

  predicate ReadsOnly(event: Event) {
    event.RunReadStep? || event.ReadOnly?
  }

  lemma OtherGrows(c: Config, event: Event)
    requires event.SendWrite? ==> !c.at.Claimed?
    requires event.DeleteNext? ==> !c.at.Compensating?
    ensures Grows(c.sys, Next(c, event).sys)
  {
    hide CreatedFor, Next;
    if ReadsOnly(event) {
      ReadEventFrame(c, event);
    } else {
      QuietAdapter(c, event);
      SagasStay(c, event);
    }
  }

  lemma ReadEventFrame(c: Config, event: Event)
    requires ReadsOnly(event)
    ensures var r := Next(c, event).sys;
            && r.adapter.objects == c.sys.adapter.objects && r.adapter.results == c.sys.adapter.results
            && r.store.sagas.Keys == c.sys.store.sagas.Keys
  {
    hide RunStep, Read, Live, OfService, StartOrLoad, Claim, CancelClaim, HandlerRequest, ConsumeAuthority, Register, Complete,
         MarkCompensated, Send, Invoke, StartCompensation;
    if c.at.Working? && Running(c.sys.store, c.at.plan) {
      if event.RunReadStep? {
        var next := NextStep(Record(c.sys, c.at.plan));
        if next.Some? && !IsWrite(next.value) {
          ReadStepFrame(event.env, c.sys, c.at.plan, next.value);
        }
      } else {
        ReadFrame(Env(event.faults, {}, {}), c.sys, c.at.plan.request.run, event.service,
                  LiveRefs(c.sys, c.at.plan, event.service));
      }
    }
  }

  /** Events that are not calls leave the adapter alone, except that states may drift. */
  lemma QuietAdapter(c: Config, event: Event)
    requires !ReadsOnly(event)
    requires event.SendWrite? ==> !c.at.Claimed?
    requires event.DeleteNext? ==> !c.at.Compensating?
    ensures var r := Next(c, event).sys;
            r.adapter.objects.Keys == c.sys.adapter.objects.Keys && r.adapter.results == c.sys.adapter.results
  {
    hide RunStep, Read, ClaimRecord, CancelRecord, CompleteRecord, RegisterRecord, HandlerRequest, FirstPending, ReservationProblem,
         ApprovalReservable, ConsumeAuthority, Live, MarkRows, Send, Invoke, CanConsume, RefsOf, StartOrLoad, Claim, CancelClaim,
         Register, Complete, RegisterReservation, RegisterApproval, MarkCompensated, BeginStep, NothingPending;
  }

  lemma SagasStay(c: Config, event: Event)
    requires !ReadsOnly(event)
    requires event.SendWrite? ==> !c.at.Claimed?
    requires event.DeleteNext? ==> !c.at.Compensating?
    ensures c.sys.store.sagas.Keys <= Next(c, event).sys.store.sagas.Keys
  {
    hide RunStep, Read, ClaimRecord, CancelRecord, CompleteRecord, RegisterRecord, HandlerRequest, FirstPending, ReservationProblem,
         ApprovalReservable, Live, MarkRows, Send, Invoke, CanConsume, RefsOf, BeginStep, StartCompensation, TypesMatch, AllIn,
         ValidDraft, StatesOf, CreatedRefs, DoBegin, DoClaim, DoClose, DoRegister;
    if event.Begin? {
      BeginSagas(c, event.plan, event.now, event.approver);
    } else {
      WriteSagas(c);
      ClaimSagas(c);
    }
  }

  /** The sagas stay and the grants do not change. */
  predicate OnlySagas(st: Store, later: Store) {
    st.sagas.Keys <= later.sagas.Keys && later.reservations == st.reservations && later.approvals == st.approvals
  }

  lemma ClaimSagas(c: Config)
    ensures forall gateOpen :: OnlySagas(c.sys.store, DoClaim(c, gateOpen).sys.store)
  {
    hide ClaimRecord, CancelRecord, HandlerRequest, FirstPending, Live, BeginStep;
  }

  lemma WriteSagas(c: Config)
    ensures OnlySagas(c.sys.store, DoRegister(c).sys.store)
    ensures OnlySagas(c.sys.store, DoClose(c).sys.store)
  {
    hide RegisterAt, CloseAt, Settle, StartCompensation, TypesMatch, AllIn, StatesOf, CreatedRefs, Loaded;
    if c.at.Replied? && Loaded(c.sys.store, c.at.plan) {
      RegisterSagas(c, c.at.plan, c.at.step, c.at.reply.created, c.at.origin);
    } else if c.at.Authorized? && Loaded(c.sys.store, c.at.plan) {
      RegisterSagas(c, c.at.plan, CampaignAdd, c.at.reply.created, c.at.origin);
    }
    forall plan, step, response | Running(c.sys.store, plan)
      ensures OnlySagas(c.sys.store, CloseAt(c, plan, step, response).sys.store)
    {
      CloseSagas(c, plan, step, response);
    }
    forall plan, status, detail | Loaded(c.sys.store, plan)
      ensures OnlySagas(c.sys.store, Settle(c.sys, plan, status, detail).store)
    {
      SettleSagas(c.sys, plan, status, detail);
    }
  }

  lemma RegisterSagas(c: Config, plan: Plan, step: Step, created: seq<Created>, origin: Origin)
    requires Loaded(c.sys.store, plan)
    ensures OnlySagas(c.sys.store, RegisterAt(c, plan, step, created, origin).sys.store)
  {
    hide RegisterRecord, RefsOf;
  }

  lemma CloseSagas(c: Config, plan: Plan, step: Step, response: Response)
    requires Running(c.sys.store, plan)
    ensures OnlySagas(c.sys.store, CloseAt(c, plan, step, response).sys.store)
  {
    hide CompleteRecord;
  }

  lemma SettleSagas(sys: System, plan: Plan, status: SagaStatus, detail: string)
    requires Loaded(sys.store, plan)
    ensures OnlySagas(sys.store, Settle(sys, plan, status, detail).store)
  {
  }

  lemma BeginSagas(c: Config, plan: Plan, now: int, approver: Principal)
    ensures c.sys.store.sagas.Keys <= DoBegin(c, plan, now, approver).sys.store.sagas.Keys
  {
    hide FirstPending, ReservationProblem, ApprovalReservable, ValidDraft;
  }

  lemma {:induction false} RunSourced(c: Config, events: seq<Event>, start: set<ObjectRef>)
    requires Inv(c) && Sourced(c.sys, start)
    ensures Sourced(RunEvents(c, events).sys, start)
    decreases |events|
  {
    hide Inv, Next, Sourced, Grows;
    if events != [] {
      StepInv(c, events[0]);
      StepGrows(c, events[0]);
      GrowsSourced(c.sys, Next(c, events[0]).sys, start);
      RunSourced(Next(c, events[0]), events[1..], start);
    }
  }

  lemma {:induction false} RefsOfSize(created: seq<Created>)
    ensures |RefsOf(created)| <= |created|
  {
    if created != [] {
      RefsOfSize(created[1..]);
      assert RefsOf(created) == {created[0].ref} + RefsOf(created[1..]) by {
        assert created == [created[0]] + created[1..];
      }
    }
  }

  lemma CreatedForIsPlanned(sys: System, k: string, service: Service)
    requires SystemOk(sys)
    ensures |CreatedFor(sys.adapter, k, service)| <= Planned(service)
    ensures forall ref :: ref in CreatedFor(sys.adapter, k, service) ==> ref.service == service
  {
    hide Times, Shaped, Lockstep, RowsKnown, Accounted, Truthful, Keyed, GrantsBound, Numbered;
    var key := StepKey(k, AddStepOf(service));
    if key in sys.adapter.results {
      assert Dispatched(sys.store, key);
      assert SagaOk(sys, k);
      RefsOfSize(sys.adapter.results[key].created);
    }
  }

  /**
   * Whatever crashes, faults and refusals a run meets: a write-step key reaches the adapter at most once, and the
   * adapter ever holds at most one campaign, one ad group, two ads and one keyword of each saga.
   */
  lemma {:induction false} ExactlyOnceCreation(first: Config, events: seq<Event>)
    requires Initial(first)
    ensures var last := RunEvents(first, events).sys;
            && (forall key: OpKey :: key.StepKey? ==> Times(last.adapter.calls, key) <= 1)
            && (forall k, service :: |CreatedFor(last.adapter, k, service)| <= Planned(service))
            && (forall k, service, ref :: ref in CreatedFor(last.adapter, k, service) ==> ref.service == service)
            && (forall ref :: ref in last.adapter.objects ==>
                  ref in first.sys.adapter.objects
                  || exists k :: k in last.store.sagas && ref in CreatedFor(last.adapter, k, ref.service))
  {
    var last := RunEvents(first, events).sys;
    InitialInv(first);
    RunInv(first, events);
    RunSourced(first, events, first.sys.adapter.objects.Keys);
    forall k, service ensures |CreatedFor(last.adapter, k, service)| <= Planned(service)
                              && forall ref :: ref in CreatedFor(last.adapter, k, service) ==> ref.service == service {
      CreatedForIsPlanned(last, k, service);
    }
    hide RunEvents, Times, CreatedFor, Keyed, GrantsBound, Numbered, SagaOk, PositionOk;
  }

  // ---------- compensation tells the truth ----------

  /** The objects of saga `k` the adapter still holds. */
  ghost predicate Holds(sys: System, k: string, ref: ObjectRef) {
    ref in sys.adapter.objects && ref in CreatedFor(sys.adapter, k, ref.service)
  }

  lemma HeldStands(sys: System, k: string, ref: ObjectRef)
    requires Holds(sys, k, ref)
    ensures exists s, c :: Stands(sys, k, s, c) && c.ref == ref
  {
    var key := StepKey(k, AddStepOf(ref.service));
    var c :| c in sys.adapter.results[key].created && c.ref == ref;
    assert Stands(sys, k, AddStepOf(ref.service), c);
  }

  /**
   * A saga that ended FAILED or PARTIALLY_APPLIED left nothing in the adapter, and one that ended
   * COMPENSATION_REQUIRED has an uncompensated row for every object it left there.
   */
  lemma {:induction false} CompensationLosesNothing(first: Config, events: seq<Event>, k: string, ref: ObjectRef)
    requires Initial(first)
    requires k in RunEvents(first, events).sys.store.sagas && Holds(RunEvents(first, events).sys, k, ref)
    ensures var record := RunEvents(first, events).sys.store.sagas[k];
            && record.status != SagaStatus.Failed && record.status != PartiallyApplied
            && (record.status == CompensationRequired ==> Owns(record.objects, ref))
  {
    hide RunEvents, Keyed, GrantsBound, Numbered, SentOnce, PositionOk, Owns, Holds, Shaped, Lockstep, RowsKnown, Accounted, RepliesFit,
         Stands;
    var last := RunEvents(first, events);
    InitialInv(first);
    RunInv(first, events);
    HeldStands(last.sys, k, ref);
    assert SagaOk(last.sys, k);
  }

  // ---------- the ledger ----------

  /** Completed steps are a prefix of the plan; dispatches are its writes, plus at most one pending: the next step. */
  lemma {:induction false} LedgerInvariant(first: Config, events: seq<Event>, k: string)
    requires Initial(first) && k in RunEvents(first, events).sys.store.sagas
    ensures var st := RunEvents(first, events).sys.store;
            var record := st.sagas[k];
            && |record.steps| <= |SAGA_STEPS|
            && (forall i :: 0 <= i < |record.steps| ==> record.steps[i].step == SAGA_STEPS[i])
            && (forall s :: IsPending(record.dispatches, s) ==> Ordinal(s) == |record.steps|)
            && (forall s :: HasDispatch(record.dispatches, s) <==>
                              IsWrite(s) && (Ordinal(s) < |record.steps| || IsPending(record.dispatches, s)))
            && (record.status == Applied ==> |record.steps| == |SAGA_STEPS|)
            && AuthorityMoves(st, k)
  {
    hide RunEvents, Keyed, Numbered, SentOnce, PositionOk, RowsKnown, Accounted, RepliesFit, Truthful, StepsArePrefix,
         DispatchesFollowSteps;
    InitialInv(first);
    RunInv(first, events);
    var st := RunEvents(first, events).sys.store;
    assert SagaOk(RunEvents(first, events).sys, k);
    LedgerOf(st.sagas[k]);
  }

  lemma LedgerOf(record: SagaRecord)
    requires Shaped(record)
    ensures |record.steps| <= |SAGA_STEPS|
    ensures forall i :: 0 <= i < |record.steps| ==> record.steps[i].step == SAGA_STEPS[i]
    ensures forall s :: IsPending(record.dispatches, s) ==> Ordinal(s) == |record.steps|
    ensures forall s :: HasDispatch(record.dispatches, s) <==>
                          IsWrite(s) && (Ordinal(s) < |record.steps| || IsPending(record.dispatches, s))
  {
    forall s
      ensures HasDispatch(record.dispatches, s) <==>
                IsWrite(s) && (Ordinal(s) < |record.steps| || IsPending(record.dispatches, s))
      ensures IsPending(record.dispatches, s) ==> Ordinal(s) == |record.steps|
    {
      PendingIsNext(record, s);
      DispatchedIs(record, s);
    }
  }

  lemma DispatchedIs(record: SagaRecord, s: Step)
    requires Shaped(record)
    ensures HasDispatch(record.dispatches, s) <==>
              IsWrite(s) && (Ordinal(s) < |record.steps| || (Ordinal(s) == |record.steps| && !NothingPending(record)))
  {
    if IsWrite(s) && Ordinal(s) < |record.steps| {
      DispatchedBefore(record, s);
    } else if IsWrite(s) && Ordinal(s) == |record.steps| && !NothingPending(record) {
      NextIsDispatchedIfPending(record, s);
    } else {
      NotDispatched(record, s);
    }
  }

  lemma DispatchedBefore(record: SagaRecord, s: Step)
    requires Shaped(record) && IsWrite(s) && Ordinal(s) < |record.steps|
    ensures HasDispatch(record.dispatches, s)
  {
    hide StepsArePrefix;
    var d, i := record.dispatches, if Ordinal(s) < 5 then Ordinal(s) else 5;
    assert d[i] in d && Ordinal(d[i].step) == Ordinal(s);
  }

  lemma NotDispatched(record: SagaRecord, s: Step)
    requires Shaped(record)
    requires !IsWrite(s) || Ordinal(s) > |record.steps| || (Ordinal(s) == |record.steps| && NothingPending(record))
    ensures !HasDispatch(record.dispatches, s)
  {
    hide StepsArePrefix;
    var d := record.dispatches;
    forall i | 0 <= i < |d| ensures d[i].step != s {
      assert i < WritesBefore(|record.steps|) ==> Ordinal(d[i].step) == WriteOrdinal(i);
    }
  }

  /** Reservation and approval belong to this saga alone, stand at the same point, and are used by the first step. */
  ghost predicate AuthorityMoves(st: Store, k: string)
    requires k in st.sagas
  {
    var request := st.sagas[k].plan.request;
    && request.reservation in st.reservations && request.approval in st.approvals
    && st.reservations[request.reservation].holder == st.approvals[request.approval].holder == Some(k)
    && st.reservations[request.reservation].status == st.approvals[request.approval].status
    && st.reservations[request.reservation].status in {Reserved, Used}
    && (st.sagas[k].steps != [] ==> st.reservations[request.reservation].status == Used)
  }

  // ---------- single-use authorities only move forward ----------

  function GrantRank(status: GrantStatus): nat {
    match status
    case Available => 0
    case Reserved => 1
    case Used => 2
  }

  ghost predicate Forward(st: Store, later: Store) {
    && (forall id :: id in st.reservations ==>
          && id in later.reservations
          && GrantRank(st.reservations[id].status) <= GrantRank(later.reservations[id].status)
          && (st.reservations[id].holder.Some? ==> later.reservations[id].holder == st.reservations[id].holder))
    && (forall id :: id in st.approvals ==>
          && id in later.approvals
          && GrantRank(st.approvals[id].status) <= GrantRank(later.approvals[id].status)
          && (st.approvals[id].holder.Some? ==> later.approvals[id].holder == st.approvals[id].holder))
  }

  predicate SetsGrants(event: Event) {
    event.Begin? || event.UseAuthority? || event.AddReservation? || event.AddApproval?
  }

  lemma GrantsElsewhere(c: Config, event: Event)
    requires !SetsGrants(event)
    ensures var st := Next(c, event).sys.store;
            st.reservations == c.sys.store.reservations && st.approvals == c.sys.store.approvals
  {
    hide RunStep, Read, Send, ClaimRecord, CancelRecord, HandlerRequest, FirstPending, Live, StartCompensation, TypesMatch, AllIn,
         BeginStep, Invoke, CompleteRecord, RegisterRecord, MarkRows, StatesOf, CreatedRefs, RefsOf, DoClose, DoRegister, DoClaim,
         DoDelete, DoReadStep;
    match event
    case CloseWrite => WriteSagas(c);
    case RegisterObjects => WriteSagas(c);
    case ClaimWrite(gateOpen) => ClaimSagas(c);
    case DeleteNext(env) => DeleteGrants(c, env);
    case RunReadStep(env) => ReadStepGrants(c, env);
    case ReadOnly(faults, service) =>
      if c.at.Working? && Running(c.sys.store, c.at.plan) {
        ReadFrame(Env(faults, {}, {}), c.sys, c.at.plan.request.run, service, LiveRefs(c.sys, c.at.plan, service));
      }
    case _ =>
  }

  lemma DeleteGrants(c: Config, env: Env)
    ensures var st := DoDelete(c, env).sys.store;
            st.reservations == c.sys.store.reservations && st.approvals == c.sys.store.approvals
  {
    hide ClaimRecord, CancelRecord, Invoke;
  }

  lemma ReadStepGrants(c: Config, env: Env)
    ensures var st := DoReadStep(c, env).sys.store;
            st.reservations == c.sys.store.reservations && st.approvals == c.sys.store.approvals
  {
    hide RunStep, StartCompensation;
    if c.at.Working? && Running(c.sys.store, c.at.plan) {
      var next := NextStep(Record(c.sys, c.at.plan));
      if next.Some? && !IsWrite(next.value) {
        ReadStepStore(env, c.sys, c.at.plan, next.value);
      }
    }
  }

  lemma ReadStepStore(env: Env, sys: System, plan: Plan, step: Step)
    requires Running(sys.store, plan) && !IsWrite(step)
    ensures var st := RunStep(env, sys, plan, step).0.store;
            st.reservations == sys.store.reservations && st.approvals == sys.store.approvals
  {
    hide Invoke, Live, OfService, ReadbackMatches, AllIn, StatesOf, SeenRefs, BeginStep, CompleteRecord, Owned;
  }

  lemma GrantStep(c: Config, event: Event)
    requires Inv(c)
    ensures Forward(c.sys.store, Next(c, event).sys.store)
  {
    hide FirstPending, ReservationProblem, ApprovalReservable, ValidDraft, Next, SagaOk, SentOnce, Numbered, Keyed, PositionOk;
    if !SetsGrants(event) {
      GrantsElsewhere(c, event);
    } else {
      GrantSet(c, event);
    }
  }

  lemma GrantSet(c: Config, event: Event)
    requires GrantsBound(c.sys.store) && SetsGrants(event)
    ensures Forward(c.sys.store, Next(c, event).sys.store)
  {
    hide Forward, GrantsBound, DoClaim, DoSend, DoRecover, DoRegister, DoClose, DoReadOnly, DoReadStep, DoDelete, DoMark,
         DoFinishCompensation, CancelClaim, DoBegin, DoAbandon, DoFinishApplied, DoUseAuthority, RegisterReservation, RegisterApproval;
    match event
    case Begin(plan, now, approver) => BeginForward(c, plan, now, approver);
    case UseAuthority => UseForward(c);
    case AddReservation(id, reservation) => NewReservationForward(c.sys.store, id, reservation);
    case AddApproval(id, approval) => NewApprovalForward(c.sys.store, id, approval);
  }

  lemma NewReservationForward(st: Store, id: string, reservation: Reservation)
    ensures Forward(st, RegisterReservation(st, id, reservation).0)
  {
  }

  lemma NewApprovalForward(st: Store, id: string, approval: Approval)
    ensures Forward(st, RegisterApproval(st, id, approval).0)
  {
  }

  lemma UseForward(c: Config)
    ensures Forward(c.sys.store, DoUseAuthority(c).sys.store)
  {
    hide Loaded;
  }

  lemma BeginForward(c: Config, plan: Plan, now: int, approver: Principal)
    requires GrantsBound(c.sys.store)
    ensures Forward(c.sys.store, DoBegin(c, plan, now, approver).sys.store)
  {
    hide FirstPending, ValidDraft;
  }

  /** Over any run a reservation or approval never becomes free again and never changes its saga. */
  lemma {:induction false} AuthorityOnlyMovesForward(c: Config, events: seq<Event>)
    requires Inv(c)
    ensures Forward(c.sys.store, RunEvents(c, events).sys.store)
    decreases |events|
  {
    hide Inv, Next;
    if events != [] {
      StepInv(c, events[0]);
      GrantStep(c, events[0]);
      AuthorityOnlyMovesForward(Next(c, events[0]), events[1..]);
    }
  }
}
