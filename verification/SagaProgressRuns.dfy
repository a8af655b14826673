/** Every event keeps the order between compensation and the steps, so every run does. */
module SagaProgressRuns {
  import opened Basics
  import opened CampaignTypes
  import opened DirectAdapter
  import opened SagaStore
  import opened SagaService
  import opened SagaMachine
  import opened SagaSafety
  import opened SagaInvariant
  import opened SagaEvents
  import opened SagaWrites
  import opened SagaRuns
  import opened SagaProgress

  // ---------- how many objects a saga has ----------

  /** The number of objects of one kind after `n` steps. */
  function KindCount(n: nat, service: Service): nat {
    match service
    case Campaigns => if n >= 1 then 1 else 0
    case AdGroups => if n >= 2 then 1 else 0
    case Ads => if n >= 3 then 2 else 0
    case Keywords => if n >= 4 then 1 else 0
  }

  function RowCount(n: nat): nat {
    KindCount(n, Campaigns) + KindCount(n, AdGroups) + KindCount(n, Ads) + KindCount(n, Keywords)
  }

  /** The first `n` steps were answered in kind. */
  ghost predicate StepsAnswered(results: map<OpKey, Reply>, k: string, n: nat)
    requires n <= |SAGA_STEPS|
  {
    forall i :: 0 <= i < n && IsAdd(SAGA_STEPS[i]) ==>
      StepKey(k, SAGA_STEPS[i]) in results && ReplyFits(results[StepKey(k, SAGA_STEPS[i])], SAGA_STEPS[i])
  }

  lemma {:induction false} RowsCounted(results: map<OpKey, Reply>, k: string, n: nat)
    requires n <= |SAGA_STEPS| && StepsAnswered(results, k, n)
    ensures |RepliedRows(results, k, n)| == RowCount(n)
  {
    hide RepliedAt, RowCount;
    if n == 0 {
      NoRows();
    } else {
      RowsCounted(results, k, n - 1);
      RowsAdded(results, k, n - 1);
      hide StepsAnswered;
    }
  }

  lemma NoRows()
    ensures RowCount(0) == 0
  {
  }

  lemma RowsAdded(results: map<OpKey, Reply>, k: string, n: nat)
    requires n < |SAGA_STEPS| && StepsAnswered(results, k, n + 1)
    ensures |RepliedAt(results, k, n)| == RowCount(n + 1) - RowCount(n)
  {
    hide RowsOf;
    RowsOfLength(results, k, n);
  }

  lemma RowsOfLength(results: map<OpKey, Reply>, k: string, n: nat)
    requires n < |SAGA_STEPS| && StepsAnswered(results, k, n + 1)
    ensures |RepliedAt(results, k, n)| == |ExpectedTypes(SAGA_STEPS[n])|
  {
  }

  lemma RowsSplit(results: map<OpKey, Reply>, k: string, n: nat)
    requires n < |SAGA_STEPS|
    ensures RepliedRows(results, k, n + 1) == RepliedRows(results, k, n) + RepliedAt(results, k, n)
  {
  }

  lemma {:induction false} KindsAddUp(created: seq<Created>)
    ensures |OfService(created, Campaigns)| + |OfService(created, AdGroups)| + |OfService(created, Ads)| + |OfService(created, Keywords)|
         == |created|
  {
    if created != [] {
      KindsAddUp(created[1..]);
    }
  }

  /** As many live objects as rows means that none is compensated. */
  lemma {:induction false} LiveCounted(objects: seq<ObjectRow>)
    ensures |Live(objects)| <= |objects|
    ensures |Live(objects)| == |objects| ==> forall row :: row in objects ==> !row.compensated
  {
    if objects != [] {
      LiveCounted(objects[1..]);
      assert objects == [objects[0]] + objects[1..];
    }
  }

  lemma {:induction false} OfServiceHas(created: seq<Created>, item: Created)
    requires item in created
    ensures item.ref in OfService(created, item.ref.service)
  {
    if created[0] != item {
      assert created == [created[0]] + created[1..];
      OfServiceHas(created[1..], item);
    }
  }

  // ---------- the last readback ----------

  lemma ReadSees(env: Env, sys: System, run: string, service: Service, ids: seq<ObjectRef>)
    requires Read(env, sys, run, service, ids).1.Answered? && ReadRequest(run, service, ids).key !in sys.adapter.results
    ensures var r := Read(env, sys, run, service, ids);
            && |r.1.reply.readback| == |ids| && (forall ref :: ref in ids ==> ref in sys.adapter.objects)
            && r.0.adapter.objects == sys.adapter.objects
  {
    hide Owned;
  }

  /** A read remembers nothing. */
  lemma ReadForgets(env: Env, sys: System, run: string, service: Service, ids: seq<ObjectRef>)
    ensures var r := Read(env, sys, run, service, ids); r.0.store == sys.store && r.0.adapter.results == sys.adapter.results
  {
    hide Apply, Owned;
  }

  lemma NoReadRemembered(sys: System)
    requires SystemOk(sys)
    ensures forall key: OpKey :: key.RunKey? ==> key !in sys.adapter.results
  {
    hide SagaOk, Keyed, GrantsBound, Numbered, Times;
  }

  /** The last readback completes only with all five objects live and standing. */
  lemma {:induction false} LastReadbackSees(env: Env, sys: System, plan: Plan)
    requires SystemOk(sys) && Running(sys.store, plan) && FullReadbackStep(env, sys, plan).1.Done?
    ensures |Live(Record(sys, plan).objects)| == 5
    ensures forall created :: created in Live(Record(sys, plan).objects) ==> created.ref in sys.adapter.objects
  {
    hide SystemOk, Read, CloseStep, CampaignMatches, GroupMatches, AdsMatch, KeywordMatches, Live, OfService;
    NoReadRemembered(sys);
    var run := plan.request.run;
    ReadOfKind(env, sys, sys, plan, Campaigns);
    var one := Read(env, sys, run, Campaigns, LiveRefs(sys, plan, Campaigns));
    ReadOfKind(env, one.0, sys, plan, AdGroups);
    var two := Read(env, one.0, run, AdGroups, LiveRefs(sys, plan, AdGroups));
    ReadOfKind(env, two.0, sys, plan, Ads);
    var three := Read(env, two.0, run, Ads, LiveRefs(sys, plan, Ads));
    ReadOfKind(env, three.0, sys, plan, Keywords);
    var live := Live(Record(sys, plan).objects);
    KindsAddUp(live);
    forall created | created in live ensures created.ref in sys.adapter.objects {
      OfServiceHas(live, created);
      match created.ref.service
      case Campaigns => assert created.ref in LiveRefs(sys, plan, Campaigns);
      case AdGroups => assert created.ref in LiveRefs(sys, plan, AdGroups);
      case Ads => assert created.ref in LiveRefs(sys, plan, Ads);
      case Keywords => assert created.ref in LiveRefs(sys, plan, Keywords);
    }
  }

  lemma ReadOfKind(env: Env, now: System, sys: System, plan: Plan, service: Service)
    requires Loaded(sys.store, plan) && now.adapter.results == sys.adapter.results && now.adapter.objects == sys.adapter.objects
    requires forall key: OpKey :: key.RunKey? ==> key !in sys.adapter.results
    ensures var ids := LiveRefs(sys, plan, service);
            var r := Read(env, now, plan.request.run, service, ids);
            && r.0.adapter.results == sys.adapter.results
            && (r.1.Answered? ==> |r.1.reply.readback| == |ids| && (forall ref :: ref in ids ==> ref in sys.adapter.objects)
                                  && r.0.adapter.objects == sys.adapter.objects)
  {
    hide Read, LiveRefs;
    var ids := LiveRefs(sys, plan, service);
    ReadForgets(env, now, plan.request.run, service, ids);
    if Read(env, now, plan.request.run, service, ids).1.Answered? {
      ReadSees(env, now, plan.request.run, service, ids);
    }
  }

  /** A saga whose last readback completes never had an object deleted. */
  lemma {:induction false} LastReadbackMeansWhole(env: Env, sys: System, plan: Plan)
    requires SystemOk(sys) && Running(sys.store, plan) && |Record(sys, plan).steps| == 7 && NothingPending(Record(sys, plan))
    requires Tidy(Record(sys, plan), sys.adapter.results, plan.request.execution)
    requires FullReadbackStep(env, sys, plan).1.Done?
    ensures !DeleteMade(sys.adapter.results, plan.request.execution)
  {
    hide SystemOk, FullReadbackStep, Live, AsRegistered, RepliedRows, NothingPending, Shaped, Lockstep, RowsKnown, Accounted, Truthful,
         Keyed, GrantsBound, SentOnce, SagaOk, ReplyFits;
    var k, objects := plan.request.execution, Record(sys, plan).objects;
    SystemParts(sys);
    SagaParts(sys, plan);
    LastReadbackSees(env, sys, plan);
    RowsCounted(sys.adapter.results, k, 7);
    RegisteredLength(objects);
    LiveCounted(objects);
    LiveLists(objects);
    if DeleteMade(sys.adapter.results, k) {
      DeletedRowIsGone(sys, objects, k);
    }
  }

  lemma DeletedRowIsGone(sys: System, objects: seq<ObjectRow>, k: string)
    requires Numbered(sys) && DeleteMade(sys.adapter.results, k)
    requires forall ref :: CompensationKey(k, ref) in sys.adapter.results ==> exists row :: row in objects && row.created.ref == ref
    ensures exists row :: row in objects && row.created.ref !in sys.adapter.objects
  {
    var ref :| CompensationKey(k, ref) in sys.adapter.results;
    DeletedIsGone(sys, k, ref);
  }

  lemma RegisteredLength(objects: seq<ObjectRow>)
    ensures |AsRegistered(objects)| == |objects|
  {
  }

  lemma DeletedIsGone(sys: System, k: string, ref: ObjectRef)
    requires Numbered(sys) && CompensationKey(k, ref) in sys.adapter.results
    ensures ref !in sys.adapter.objects
  {
    var key := CompensationKey(k, ref);
    assert key.CompensationKey? && key.ref == ref;
  }

  // ---------- events that leave the rows alone ----------

  lemma SameTidy(sys: System, later: System)
    requires AllTidy(sys) && later.store.sagas == sys.store.sagas && later.adapter.results == sys.adapter.results
    ensures AllTidy(later)
  {
    hide Tidy;
  }

  /** Neither a saga's rows nor the remembered answers change, and the position stays or is a harmless one. */
  lemma StaysOrderly(c: Config, d: Config)
    requires Orderly(c) && d.sys.store.sagas == c.sys.store.sagas && d.sys.store.runs == c.sys.store.runs
    requires d.sys.adapter.results == c.sys.adapter.results
    requires d.at == c.at || d.at.Idle? || d.at.Working? || d.at.Replied? || d.at.Authorized? || d.at.Reconciling? || d.at.Abandoned?
    ensures Orderly(d)
  {
    hide AllTidy, FarEnough, DeleteMade;
    SameTidy(c.sys, d.sys);
  }

  lemma SettledOrderly(c: Config, plan: Plan, status: SagaStatus, detail: string, at: Position)
    requires Orderly(c) && Loaded(c.sys.store, plan) && (at.Idle? || at.Abandoned?)
    ensures Orderly(Config(Settle(c.sys, plan, status, detail), at))
  {
    hide Tidy;
    TidySettled(Record(c.sys, plan), c.sys.adapter.results, plan.request.execution, status, detail);
    RecordTidy(c.sys, Settle(c.sys, plan, status, detail), plan);
  }

  lemma TidyOf(c: Config, plan: Plan)
    requires Orderly(c) && Loaded(c.sys.store, plan)
    ensures Tidy(Record(c.sys, plan), c.sys.adapter.results, plan.request.execution)
  {
    hide Tidy, PositionTidy;
  }

  lemma BeginOrderly(c: Config, plan: Plan, now: int, approver: Principal)
    requires Inv(c) && Orderly(c)
    ensures Orderly(DoBegin(c, plan, now, approver))
  {
    hide Inv, Tidy, ValidDraft, StartOrLoad, FirstPending, DeleteMade, FarEnough;
    var started := StartOrLoad(c.sys.store, plan, now, approver);
    if started.1.Ok? {
      StartOrLoadStarts(c.sys.store, plan, now, approver);
      var later := c.sys.(store := started.0);
      if started.0 != c.sys.store {
        NewIsTidy(plan, c.sys, later);
      } else {
        SameTidy(c.sys, later);
      }
    }
  }

  lemma NewIsTidy(plan: Plan, sys: System, later: System)
    requires AllTidy(sys) && Starts(sys.store, plan) && later == sys.(store := Started(sys.store, plan))
    ensures AllTidy(later)
  {
    var k := plan.request.execution;
    assert Tidy(later.store.sagas[k], later.adapter.results, k) by {
      NothingRows(later.adapter.results, k);
      assert forall key: OpKey :: key.CompensationKey? && key in sys.adapter.results ==> key.execution in sys.store.sagas;
      assert forall ref :: CompensationKey(k, ref).CompensationKey? && CompensationKey(k, ref).execution == k;
      hide AllTidy;
    }
    hide Tidy;
    forall j ensures SameKeys(sys.adapter.results, later.adapter.results, j) {
    }
    OneSaga(sys, later, k);
  }

  lemma {:induction false} NothingRows(results: map<OpKey, Reply>, k: string)
    ensures AsRegistered([]) == RepliedRows(results, k, 0)
  {
  }

  // ---------- claim, refusal and call ----------

  lemma ClaimOrderly(c: Config, gateOpen: bool)
    requires Inv(c) && Orderly(c) && c.at.Working?
    ensures Orderly(DoClaim(c, gateOpen))
  {
    hide SystemOk, Tidy, Live, HandlerRequest, CancelClaim, ClaimRecord, BeginStep, Shaped, Lockstep, RowsKnown, Accounted, Truthful,
         RepliesFit, NothingPending, DeleteMade, FarEnough;
    var plan := c.at.plan;
    SagaParts(c.sys, plan);
    TidyOf(c, plan);
    var record := Record(c.sys, plan);
    var next := NextStep(record);
    var d := DoClaim(c, gateOpen);
    if next.Some? && IsWrite(next.value) && BeginStep(record, next.value).Ok?
       && HandlerRequest(plan, Live(record.objects), next.value).Ok?
    {
      var request := HandlerRequest(plan, Live(record.objects), next.value).value;
      HandlerRequestFits(plan, Live(record.objects), next.value);
      RequestRun(plan, next.value, request);
      ClaimShape(record, request, gateOpen);
      if Claim(c.sys.store, request, gateOpen).1 == Ok(true) {
        ClaimedUnanswered(c.sys, plan, ClaimRecord(record, request, gateOpen).0);
        TidyClaimed(record, c.sys.adapter.results, plan.request.execution, ClaimRecord(record, request, gateOpen).0);
        RecordTidy(c.sys, d.sys, plan);
      } else {
        ClaimRefused(c.sys, plan, request, gateOpen);
        StaysOrderly(c, d);
      }
    }
  }

  /** The row of a new claim is its next step's, and was never answered. */
  lemma {:induction false} ClaimedUnanswered(sys: System, plan: Plan, claimed: SagaRecord)
    requires SystemOk(sys) && Loaded(sys.store, plan) && NothingPending(Record(sys, plan))
    requires Shaped(claimed) && claimed.steps == Record(sys, plan).steps && claimed.dispatches != []
    requires claimed.dispatches == Record(sys, plan).dispatches
             || claimed.dispatches == Record(sys, plan).dispatches + [Last(claimed.dispatches)]
    ensures forall row :: row in claimed.dispatches ==>
              row in Record(sys, plan).dispatches || StepKey(plan.request.execution, row.step) !in sys.adapter.results
  {
    hide SystemOk, Lockstep, RowsKnown, Accounted, Truthful, RepliesFit, Times, Keyed, GrantsBound, Numbered, SentOnce;
    SystemParts(sys);
    SagaParts(sys, plan);
    if claimed.dispatches != Record(sys, plan).dispatches {
      NeverSent(sys, plan, Last(claimed.dispatches).step);
      SentMeansCalled(sys, StepKey(plan.request.execution, Last(claimed.dispatches).step));
    }
  }

  lemma RefuseOrderly(c: Config)
    requires Inv(c) && Orderly(c) && c.at.Claimed?
    ensures Orderly(Next(c, RefuseWrite))
  {
    hide SystemOk, Tidy, RequestFits, CancelRecord, Shaped, Lockstep, RowsKnown, Accounted, Truthful, RepliesFit, Times, DeleteMade,
         NothingPending, Keyed, GrantsBound, SentOnce, Numbered, FarEnough;
    var plan, step, request := c.at.plan, c.at.step, c.at.request;
    SystemParts(c.sys);
    SagaParts(c.sys, plan);
    TidyOf(c, plan);
    RequestKey(plan, step, request);
    RequestRun(plan, step, request);
    SentMeansCalled(c.sys, request.key);
    PendingRow(c.sys, plan, step);
    OrdinalStep(step);
    var record := Record(c.sys, plan);
    CancelShape(record, request);
    TidyCancelled(record, c.sys.adapter.results, plan.request.execution, CancelRecord(record, request));
    RecordTidy(c.sys, Next(c, RefuseWrite).sys, plan);
  }

  lemma ExtendsGrows(a: Adapter, b: Adapter, key: OpKey)
    requires Extends(a, b, key)
    ensures Grows(a.results, b.results, key) && (key.RunKey? ==> b.results == a.results)
  {
  }

  /** One saga's remembered answers grow by one. */
  lemma ResultTidy(sys: System, b: Adapter, plan: Plan, key: OpKey)
    requires AllTidy(sys) && Loaded(sys.store, plan) && !key.RunKey? && key.execution == plan.request.execution
    requires Grows(sys.adapter.results, b.results, key)
    requires Tidy(Record(sys, plan), b.results, plan.request.execution)
    ensures AllTidy(sys.(adapter := b))
  {
    hide Tidy, Grows, SameKeys;
    forall j | j != plan.request.execution ensures SameKeys(sys.adapter.results, b.results, j) {
      GrowsSame(sys.adapter.results, b.results, key, j);
    }
    GrowsOnly(sys.adapter.results, b.results, key);
    OneSaga(sys, sys.(adapter := b), plan.request.execution);
  }

  lemma GrowsOnly(results: map<OpKey, Reply>, later: map<OpKey, Reply>, key: OpKey)
    requires Grows(results, later, key)
    ensures forall other: OpKey :: other in later ==> other in results || other == key
  {
  }

  lemma SendOrderly(c: Config, faults: Faults)
    requires Inv(c) && Orderly(c) && c.at.Claimed?
    ensures Orderly(DoSend(c, faults))
  {
    hide SystemOk, Tidy, RequestFits, Shaped, Lockstep, RowsKnown, Accounted, Truthful, RepliesFit, Times, DeleteMade, Invoke, Extends,
         ReplyFits, NothingPending, Keyed, GrantsBound, SentOnce, Numbered, StartCompensation, HasObjectsOf, AllTidy, Grows;
    var plan, step, request := c.at.plan, c.at.step, c.at.request;
    SystemParts(c.sys);
    SagaParts(c.sys, plan);
    TidyOf(c, plan);
    RequestKey(plan, step, request);
    SentMeansCalled(c.sys, request.key);
    PendingRow(c.sys, plan, step);
    OrdinalStep(step);
    InvokeExtends(faults, c.sys.adapter, request);
    FirstCall(faults, c.sys.adapter, plan, step, request);
    var answered := Invoke(faults, c.sys.adapter, request);
    ExtendsGrows(c.sys.adapter, answered.0, request.key);
    SentInKind(c.sys, plan, step, request, faults);
    TidyAnswered(Record(c.sys, plan), c.sys.adapter.results, answered.0.results, plan.request.execution);
    TidyHere(c);
    ResultTidy(c.sys, answered.0, plan, request.key);
    if answered.1.DefiniteFailure? {
      CompensatesFrom(DoSend(c, faults).sys, plan, answered.1.reason);
    }
  }

  lemma SentInKind(sys: System, plan: Plan, step: Step, request: DirectRequest, faults: Faults)
    requires SystemOk(sys) && Awaits(sys, plan, step) && Last(Record(sys, plan).dispatches).request == request
    requires RequestFits(plan, step, request) && request.key !in sys.adapter.results
    ensures var results := Invoke(faults, sys.adapter, request).0.results;
            && Grows(sys.adapter.results, results, StepKey(plan.request.execution, step))
            && (InKind(Record(sys, plan), sys.adapter.results, plan.request.execution) ==>
                  InKind(Record(sys, plan), results, plan.request.execution))
  {
    hide SystemOk, Shaped, Lockstep, RowsKnown, Accounted, Truthful, RepliesFit, InKind, Apply, Grows, RequestFits, NothingPending;
    SagaParts(sys, plan);
    RequestKey(plan, step, request);
    var results := Invoke(faults, sys.adapter, request).0.results;
    if Apply(faults.types, sys.adapter, request).outcome.Answered? {
      NewReplyFits(faults.types, sys.adapter, plan, step, request);
    }
    RequestNotRead(plan, step, request);
    InvokeExtends(faults, sys.adapter, request);
    ExtendsGrows(sys.adapter, Invoke(faults, sys.adapter, request).0, request.key);
    OneRowAStep(Record(sys, plan));
    if InKind(Record(sys, plan), sys.adapter.results, plan.request.execution) {
      AnsweredInKind(Record(sys, plan), sys.adapter.results, results, plan.request.execution, step, request);
    }
  }

  lemma RequestNotRead(plan: Plan, step: Step, request: DirectRequest)
    requires RequestFits(plan, step, request)
    ensures !request.key.RunKey?
  {
  }

  lemma OneRowAStep(record: SagaRecord)
    requires Shaped(record) && !NothingPending(record)
    ensures forall row :: row in record.dispatches && row.step == Last(record.dispatches).step ==> row == Last(record.dispatches)
  {
  }

  lemma TidyHere(c: Config)
    requires Orderly(c)
    ensures AllTidy(c.sys)
  {
    hide AllTidy;
  }

  lemma CompensatesFrom(sys: System, plan: Plan, detail: string)
    requires Loaded(sys.store, plan) && FarEnough(Record(sys, plan), sys.adapter.results, plan.request.execution)
    ensures PositionTidy(Config(sys, StartCompensation(sys, plan, detail)))
  {
    hide FarEnough, Live;
  }

  // ---------- reconciliation ----------

  lemma RecoverOrderly(c: Config)
    requires Inv(c) && Orderly(c) && c.at.Reconciling?
    ensures Orderly(DoRecover(c))
  {
    hide Orderly, SystemOk, FirstPending, Settle;
    var plan := c.at.plan;
    var pending := FirstPending(Record(c.sys, plan).dispatches);
    if pending.Some? && pending.value.request.key !in c.sys.adapter.results {
      SettledOrderly(c, plan, UnknownResult, "READBACK_COULD_NOT_RESOLVE_DISPATCH", GiveUp(plan, c.at.origin));
    } else {
      StaysOrderly(c, DoRecover(c));
    }
  }

  lemma UseOrderly(c: Config)
    requires Inv(c) && Orderly(c) && c.at.Replied?
    ensures Orderly(DoUseAuthority(c))
  {
    hide Orderly, SystemOk, Settle;
    var plan := c.at.plan;
    if c.at.step == CampaignAdd {
      if ConsumeAuthority(c.sys.store, plan).1.Ok? || c.at.origin == Called {
        StaysOrderly(c, DoUseAuthority(c));
      } else {
        SettledOrderly(c, plan, UnknownResult, "FIRST_WRITE_AUTHORITY_RECONCILIATION_FAILED", GiveUp(plan, c.at.origin));
      }
    }
  }

  // ---------- registering and closing ----------

  lemma RegisterOrderly(c: Config, plan: Plan, step: Step, reply: Reply, origin: Origin)
    requires Inv(c) && Orderly(c) && IsAdd(step)
    requires Awaits(c.sys, plan, step) && Answers(c.sys, plan, step, reply)
    ensures Orderly(RegisterAt(c, plan, step, reply.created, origin))
  {
    hide SystemOk, Tidy, Shaped, Lockstep, Accounted, Truthful, RepliesFit, DeleteMade, RegisterRecord, PositionOk, FarEnough;
    SagaParts(c.sys, plan);
    TidyOf(c, plan);
    PendingRow(c.sys, plan, step);
    var registered := RegisterRecord(Record(c.sys, plan), c.sys.store.index, step, reply.created);
    var d := RegisterAt(c, plan, step, reply.created, origin);
    if registered.Ok? {
      TidyRegistered(Record(c.sys, plan), c.sys.adapter.results, plan.request.execution, c.sys.store.index, step, reply.created);
      RegisteredPlan(Record(c.sys, plan), c.sys.store.index, step, reply.created);
      RecordTidy(c.sys, d.sys, plan);
    } else {
      StaysOrderly(c, d);
    }
  }

  lemma RegisteredPlan(record: SagaRecord, index: set<ObjectRef>, step: Step, created: seq<Created>)
    requires RegisterRecord(record, index, step, created).Ok?
    ensures RegisterRecord(record, index, step, created).value.plan == record.plan
  {
  }

  lemma DoRegisterOrderly(c: Config)
    requires Inv(c) && Orderly(c)
    ensures Orderly(DoRegister(c))
  {
    hide Orderly, SystemOk, RegisterAt, AllOwned, Listed, Answers, Awaits, AuthorityUsed;
    if c.at.Replied? && IsAdd(c.at.step) && c.at.step != CampaignAdd {
      RegisterOrderly(c, c.at.plan, c.at.step, c.at.reply, c.at.origin);
    } else if c.at.Authorized? {
      RegisterOrderly(c, c.at.plan, CampaignAdd, c.at.reply, c.at.origin);
    }
  }

  /** Closing the pending step: it creates nothing, or its objects are registered. */
  lemma CloseOrderly(c: Config, plan: Plan, step: Step, response: Response)
    requires Inv(c) && Orderly(c) && Running(c.sys.store, plan) && Ordinal(step) == |Record(c.sys, plan).steps|
    requires IsAdd(step) ==> HasObjectsOf(Record(c.sys, plan).objects, step)
    requires DeleteMade(c.sys.adapter.results, plan.request.execution) ==> 4 <= Ordinal(step) < 7
    ensures Orderly(CloseAt(c, plan, step, response))
  {
    hide Inv, Tidy, DeleteMade, HasObjectsOf, CloseDispatch, IsPending, HasStep, FarEnough, Ordinal;
    TidyOf(c, plan);
    OrdinalStep(step);
    var record := Record(c.sys, plan);
    var d := CloseAt(c, plan, step, response);
    var completed := CompleteRecord(record, step, response);
    if completed.Ok? {
      CompletedInKind(record, c.sys.adapter.results, plan.request.execution, step, response);
      TidyCompleted(record, c.sys.adapter.results, plan.request.execution, completed.value);
      RecordTidy(c.sys, d.sys, plan);
    } else {
      StaysOrderly(c, d);
    }
  }

  lemma CompletedInKind(record: SagaRecord, results: map<OpKey, Reply>, k: string, step: Step, response: Response)
    requires CompleteRecord(record, step, response).Ok?
    ensures InKind(record, results, k) ==> InKind(CompleteRecord(record, step, response).value, results, k)
  {
    hide InKind, CloseDispatch, IsPending, HasStep;
    if InKind(record, results, k) {
      ClosedInKind(record, results, k, CompleteRecord(record, step, response).value, step);
    }
  }

  lemma RegisteredFacts(c: Config)
    requires Inv(c) && Orderly(c) && c.at.Registered?
    ensures var plan, step := c.at.plan, c.at.step;
            && Running(c.sys.store, plan) && Ordinal(step) == |Record(c.sys, plan).steps| && HasObjectsOf(Record(c.sys, plan).objects, step)
            && (DeleteMade(c.sys.adapter.results, plan.request.execution) ==> 5 <= Ordinal(step) < 7)
            && FarEnough(Record(c.sys, plan), c.sys.adapter.results, plan.request.execution)
  {
    hide SystemOk, AllTidy, HasObjectsOf, DeleteMade, Shaped, Lockstep, RowsKnown, Accounted, Truthful, RepliesFit;
    SagaParts(c.sys, c.at.plan);
    PendingRow(c.sys, c.at.plan, c.at.step);
    OrdinalStep(c.at.step);
  }

  lemma CloseRegisteredOrderly(c: Config)
    requires Inv(c) && Orderly(c) && c.at.Registered?
    ensures Orderly(DoClose(c))
  {
    hide Inv, HasObjectsOf, DeleteMade, AllTidy, CloseAt, StartCompensation, FarEnough, TypesMatch;
    RegisteredFacts(c);
    var plan := c.at.plan;
    if TypesMatch(c.at.created, c.at.step) {
      CloseOrderly(c, plan, c.at.step, Ids(CreatedRefs(c.at.created)));
    } else if c.at.origin == Called {
      CompensatesFrom(c.sys, plan, "CREATED_OBJECT_TYPE_MISMATCH");
    }
  }

  lemma RepliedFacts(c: Config)
    requires Inv(c) && Orderly(c) && c.at.Replied?
    ensures var plan, step := c.at.plan, c.at.step;
            && Running(c.sys.store, plan) && Ordinal(step) == |Record(c.sys, plan).steps|
            && (DeleteMade(c.sys.adapter.results, plan.request.execution) ==>
                  FarEnough(Record(c.sys, plan), c.sys.adapter.results, plan.request.execution))
  {
    hide SystemOk, HasObjectsOf, DeleteMade, Shaped, Lockstep, RowsKnown, Accounted, Truthful, RepliesFit, RowsReplied,
         DeletesMarked, FarEnough;
    SagaParts(c.sys, c.at.plan);
    PendingRow(c.sys, c.at.plan, c.at.step);
    TidyOf(c, c.at.plan);
  }

  lemma CloseRepliedOrderly(c: Config)
    requires Inv(c) && Orderly(c) && c.at.Replied? && c.at.step in {ModerationSubmit, CampaignLaunch}
    ensures Orderly(DoClose(c))
  {
    hide Inv, Orderly, DeleteMade, CloseAt, StartCompensation, Settle, AllIn, StatesOf;
    RepliedFacts(c);
    var plan := c.at.plan;
    if c.at.step == ModerationSubmit {
      if c.at.origin == Called || (c.at.reply.readback != [] && AllIn(c.at.reply.readback, Moderation)) {
        CloseOrderly(c, plan, ModerationSubmit, States(StatesOf(c.at.reply.readback)));
      } else {
        SettledOrderly(c, plan, SagaStatus.Failed, "RECONCILIATION_CONFIRMED_ORIGINAL_STATE", GiveUp(plan, c.at.origin));
      }
    } else if c.at.reply.readback != [] && c.at.reply.readback[0].item.state == On
              && (c.at.origin == Called || |c.at.reply.readback| == 1) {
      CloseOrderly(c, plan, CampaignLaunch, States([On]));
    } else if c.at.origin == Called {
      CompensationOrderly(c, plan, "CAMPAIGN_LAUNCH_READBACK_FAILED");
    } else {
      SettledOrderly(c, plan, SagaStatus.Failed, "RECONCILIATION_CONFIRMED_ORIGINAL_STATE", GiveUp(plan, c.at.origin));
    }
  }

  lemma CompensationOrderly(c: Config, plan: Plan, detail: string)
    requires Orderly(c) && Loaded(c.sys.store, plan) && 5 <= |Record(c.sys, plan).steps| < |SAGA_STEPS|
    ensures Orderly(Config(c.sys, StartCompensation(c.sys, plan, detail)))
  {
    hide AllTidy, StartCompensation;
    CompensatesFrom(c.sys, plan, detail);
  }

  // ---------- reads ----------

  lemma ReadOnlyOrderly(c: Config, faults: Faults, service: Service)
    requires Orderly(c)
    ensures Orderly(DoReadOnly(c, faults, service))
  {
    hide Orderly, Read, LiveRefs;
    if c.at.Working? && Running(c.sys.store, c.at.plan) {
      ReadForgets(Env(faults, {}, {}), c.sys, c.at.plan.request.run, service, LiveRefs(c.sys, c.at.plan, service));
      StaysOrderly(c, DoReadOnly(c, faults, service));
    }
  }

  /** A read step remembers nothing, and closes or leaves the store alone. */
  lemma ReadStepEnds(env: Env, sys: System, plan: Plan, step: Step)
    requires Running(sys.store, plan) && !IsWrite(step)
    ensures var r := RunStep(env, sys, plan, step);
            && r.0.adapter.results == sys.adapter.results
            && (r.1.Done? || r.0.store == sys.store)
            && (r.1.Done? ==> r.0.store.sagas == sys.store.sagas[plan.request.execution := Record(r.0, plan)]
                              && Record(r.0, plan).objects == Record(sys, plan).objects
                              && Record(r.0, plan).dispatches == Record(sys, plan).dispatches
                              && |Record(r.0, plan).steps| == |Record(sys, plan).steps| + 1 == Ordinal(step) + 1)
            && (r.1.Done? && step == FullReadback ==> FullReadbackStep(env, sys, plan).1.Done?)
  {
    hide Read, CloseStep, LiveRefs, AllIn, StatesOf, SeenRefs, ReadbackMatches, FirstPending;
    var run := plan.request.run;
    if step == ModerationReadback {
      ReadForgets(env, sys, run, Ads, LiveRefs(sys, plan, Ads));
      var read := Read(env, sys, run, Ads, LiveRefs(sys, plan, Ads));
      if read.1.Answered? {
        ClosesStep(read.0, plan, step, States(StatesOf(read.1.reply.readback)));
      }
    } else {
      ReadForgets(env, sys, run, Campaigns, LiveRefs(sys, plan, Campaigns));
      var one := Read(env, sys, run, Campaigns, LiveRefs(sys, plan, Campaigns));
      ReadForgets(env, one.0, run, AdGroups, LiveRefs(sys, plan, AdGroups));
      var two := Read(env, one.0, run, AdGroups, LiveRefs(sys, plan, AdGroups));
      ReadForgets(env, two.0, run, Ads, LiveRefs(sys, plan, Ads));
      var three := Read(env, two.0, run, Ads, LiveRefs(sys, plan, Ads));
      ReadForgets(env, three.0, run, Keywords, LiveRefs(sys, plan, Keywords));
      var four := Read(env, three.0, run, Keywords, LiveRefs(sys, plan, Keywords));
      if one.1.Answered? && two.1.Answered? && three.1.Answered? && four.1.Answered? {
        ClosesStep(four.0, plan, step,
                   ReadbackIds(SeenRefs(one.1.reply.readback), SeenRefs(two.1.reply.readback),
                               SeenRefs(three.1.reply.readback), SeenRefs(four.1.reply.readback)));
      }
    }
  }

  ghost predicate Closes(sys: System, plan: Plan, step: Step, response: Response)
    requires Running(sys.store, plan)
  {
    var r := CloseStep(sys, plan, step, response);
    && r.0.adapter == sys.adapter
    && (r.1.Done? || r.0.store == sys.store)
    && (r.1.Done? && Ordinal(step) == |Record(sys, plan).steps| ==>
          (!IsWrite(step) ==> Record(r.0, plan).dispatches == Record(sys, plan).dispatches)
          && r.0.store.sagas == sys.store.sagas[plan.request.execution := Record(r.0, plan)]
          && Record(r.0, plan).objects == Record(sys, plan).objects
          && |Record(r.0, plan).steps| == |Record(sys, plan).steps| + 1)
  }

  lemma ClosesStep(sys: System, plan: Plan, step: Step, response: Response)
    requires Running(sys.store, plan)
    ensures Closes(sys, plan, step, response)
  {
    hide CloseDispatch, IsPending, HasStep;
  }

  lemma ReadStepOrderly(c: Config, env: Env)
    requires Inv(c) && Orderly(c) && c.at.Working?
    ensures Orderly(DoReadStep(c, env))
  {
    hide Orderly, SystemOk, RunStep, NothingPending, StartCompensation, DeleteMade, FullReadbackStep, HasObjectsOf, Tidy;
    var plan, results := c.at.plan, c.sys.adapter.results;
    var record := Record(c.sys, plan);
    var next := NextStep(record);
    if next.Some? && !IsWrite(next.value) {
      StepOrdinal(|record.steps|);
      ReadStepEnds(env, c.sys, plan, next.value);
      var ran := RunStep(env, c.sys, plan, next.value);
      TidyOf(c, plan);
      if ran.1.Done? {
        if next.value == FullReadback {
          LastReadbackMeansWhole(env, c.sys, plan);
        }
        SameInKind(record, results, plan.request.execution, Record(ran.0, plan));
        TidyCompleted(record, results, plan.request.execution, Record(ran.0, plan));
        OrderlyIs(c);
        RecordTidy(c.sys, ran.0, plan);
        WorkingOrderly(ran.0, plan);
      } else {
        StaysOrderly(c, Config(ran.0, Working(plan)));
        StaysOrderly(c, Config(ran.0, Idle));
        StaysOrderly(c, Config(ran.0, Reconciling(plan, AfterUnknown)));
        if ran.1.Failure? {
          CompensationOrderly(Config(ran.0, Idle), plan, ran.1.detail);
        }
      }
    }
  }

  lemma SameInKind(record: SagaRecord, results: map<OpKey, Reply>, k: string, later: SagaRecord)
    requires later.dispatches == record.dispatches
    ensures InKind(record, results, k) ==> InKind(later, results, k)
  {
  }

  lemma OrderlyIs(c: Config)
    requires Orderly(c)
    ensures AllTidy(c.sys)
  {
    hide AllTidy;
  }

  lemma WorkingOrderly(sys: System, plan: Plan)
    requires AllTidy(sys)
    ensures Orderly(Config(sys, Working(plan)))
  {
    hide AllTidy;
  }

  // ---------- compensation ----------

  lemma OwnedHasRow(sys: System, plan: Plan, ref: ObjectRef)
    requires Loaded(sys.store, plan) && Owned(sys.store, plan.request.run, ref)
    ensures exists row :: row in Record(sys, plan).objects && row.created.ref == ref
  {
  }

  /** A delete that is tried: the store stays, and at most its own answer is remembered, which an answered one is. */
  lemma DeleteGrows(env: Env, sys: System, plan: Plan, ref: ObjectRef)
    requires SystemOk(sys) && Running(sys.store, plan) && Owned(sys.store, plan.request.run, ref)
    ensures var r := Send(env, sys, CompensationRequest(plan, ref));
            && r.0.store == sys.store
            && Grows(sys.adapter.results, r.0.adapter.results, CompensationKey(plan.request.execution, ref))
            && (r.1.Answered? ==> CompensationKey(plan.request.execution, ref) in r.0.adapter.results)
  {
    hide SystemOk, Invoke, Extends, Shaped, Lockstep, Accounted, Truthful, RepliesFit, Keyed, GrantsBound, SentOnce,
         Claim, CancelClaim, Owned, Numbered, RowsKnown, Grows;
    var request := CompensationRequest(plan, ref);
    SystemParts(sys);
    SagaParts(sys, plan);
    CompensationKeepsStore(env, sys, plan, ref);
    OwnedIsNumbered(sys, plan, ref);
    InvokeExtends(env.faults, sys.adapter, request);
    DeleteRemoves(env.faults, sys, plan, ref);
    ExtendsGrows(sys.adapter, Invoke(env.faults, sys.adapter, request).0, request.key);
    GrowsNot(sys.adapter.results, request.key);
  }

  lemma GrowsNot(results: map<OpKey, Reply>, key: OpKey)
    ensures Grows(results, results, key)
  {
  }

  lemma DeleteOrderly(c: Config, env: Env)
    requires Inv(c) && Orderly(c) && c.at.Compensating?
    ensures Orderly(DoDelete(c, env))
  {
    hide SystemOk, AllOwned, Listed, Tidy, AllTidy, FarEnough, Send, Owned, Grows;
    if c.at.todo != [] && DeleteAllowed(c.sys, c.at.plan, c.at.todo[0]) {
      var plan, ref := c.at.plan, c.at.todo[0];
      DeleteGrows(env, c.sys, plan, ref);
      var b := Send(env, c.sys, CompensationRequest(plan, ref)).0.adapter;
      OwnedHasRow(c.sys, plan, ref);
      TidyOf(c, plan);
      TidyDeleted(Record(c.sys, plan), c.sys.adapter.results, b.results, plan.request.execution, ref);
      ResultTidy(c.sys, b, plan, CompensationKey(plan.request.execution, ref));
      assert DoDelete(c, env).sys == c.sys.(adapter := b);
    }
  }

  lemma MarkOrderly(c: Config)
    requires Inv(c) && Orderly(c) && c.at.Deleted?
    ensures Orderly(DoMark(c))
  {
    hide SystemOk, AllOwned, Listed, Tidy, AllTidy, FarEnough, MarkRows;
    var plan := c.at.plan;
    TidyOf(c, plan);
    TidyMarked(Record(c.sys, plan), c.sys.adapter.results, plan.request.execution, c.at.ref);
    RecordTidy(c.sys, DoMark(c).sys, plan);
  }

  // ---------- every run ----------

  lemma StepOrderly(c: Config, event: Event)
    requires Inv(c) && Orderly(c)
    ensures Orderly(Next(c, event))
  {
    hide SystemOk, Orderly, PositionOk, DoBegin, DoClaim, DoSend, DoRecover, DoUseAuthority, DoRegister, DoClose, DoReadOnly, DoReadStep,
         DoDelete, DoMark, CancelClaim, Settle, RegisterReservation, RegisterApproval;
    match event
    case Crash => StaysOrderly(c, c.(at := Idle));
    case Drift(_) => StaysOrderly(c, Next(c, event));
    case AddReservation(id, reservation) => GrantsOrderly(c, event);
    case AddApproval(id, approval) => GrantsOrderly(c, event);
    case Begin(plan, now, approver) => BeginOrderly(c, plan, now, approver);
    case ClaimWrite(gateOpen) => if c.at.Working? { ClaimOrderly(c, gateOpen); } else { Elsewhere(c, event); }
    case RefuseWrite => if c.at.Claimed? { RefuseOrderly(c); }
    case SendWrite(faults) => if c.at.Claimed? { SendOrderly(c, faults); } else { Elsewhere(c, event); }
    case Recover => if c.at.Reconciling? { RecoverOrderly(c); } else { Elsewhere(c, event); }
    case UseAuthority => if c.at.Replied? { UseOrderly(c); } else { Elsewhere(c, event); }
    case RegisterObjects => DoRegisterOrderly(c);
    case CloseWrite => CloseWriteOrderly(c);
    case ReadOnly(faults, service) => ReadOnlyOrderly(c, faults, service);
    case RunReadStep(env) => if c.at.Working? { ReadStepOrderly(c, env); } else { Elsewhere(c, event); }
    case Abandon => AbandonOrderly(c);
    case DeleteNext(env) => if c.at.Compensating? { DeleteOrderly(c, env); } else { Elsewhere(c, event); }
    case MarkDeleted => if c.at.Deleted? { MarkOrderly(c); } else { Elsewhere(c, event); }
    case FinishCompensation => FinishOrderly(c, event);
    case FinishApplied => FinishOrderly(c, event);
  }

  lemma GrantsOrderly(c: Config, event: Event)
    requires Orderly(c) && (event.AddReservation? || event.AddApproval?)
    ensures Orderly(Next(c, event))
  {
    hide Orderly;
    StaysOrderly(c, Next(c, event));
  }

  lemma CloseWriteOrderly(c: Config)
    requires Inv(c) && Orderly(c)
    ensures Orderly(DoClose(c))
  {
    hide Inv, Orderly, CloseAt, Settle, StartCompensation, TypesMatch, AllIn, StatesOf;
    if c.at.Registered? {
      CloseRegisteredOrderly(c);
    } else if c.at.Replied? && c.at.step in {ModerationSubmit, CampaignLaunch} {
      CloseRepliedOrderly(c);
    }
  }

  lemma AbandonOrderly(c: Config)
    requires Orderly(c)
    ensures Orderly(DoAbandon(c))
  {
    hide Orderly, Settle;
    if c.at.Abandoned? && Loaded(c.sys.store, c.at.plan) {
      SettledOrderly(c, c.at.plan, UnknownResult, "FAKE_DIRECT_OUTCOME_UNKNOWN", Idle);
    }
  }

  lemma FinishOrderly(c: Config, event: Event)
    requires Orderly(c) && (event.FinishCompensation? || event.FinishApplied?)
    ensures Orderly(Next(c, event))
  {
    hide Orderly, Settle;
    var d := Next(c, event);
    if d != c {
      var plan := c.at.plan;
      var status := if event.FinishApplied? then Applied
                    else if c.at.nothing then SagaStatus.Failed
                    else if c.at.failures > 0 then CompensationRequired else PartiallyApplied;
      SettledOrderly(c, plan, status, if event.FinishApplied? then "" else c.at.detail, Idle);
    }
  }

  lemma InitialOrderly(c: Config)
    requires Initial(c)
    ensures Orderly(c)
  {
  }

  lemma {:induction false} RunOrderly(c: Config, events: seq<Event>)
    requires Inv(c) && Orderly(c)
    ensures Inv(RunEvents(c, events)) && Orderly(RunEvents(c, events))
    decreases |events|
  {
    hide Inv, Orderly, Next;
    if events != [] {
      StepInv(c, events[0]);
      StepOrderly(c, events[0]);
      RunOrderly(Next(c, events[0]), events[1..]);
    }
  }
}
