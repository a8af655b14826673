/**
 * The lifecycle service as functions over the durable state: the store's tables and the adapter's world.
 * Every function follows one method of the service or of the connector, exceptions included.
 */
module SagaService {
  import opened Basics
  import opened CampaignTypes
  import opened DirectAdapter
  import opened SagaStore

  datatype System = System(store: Store, adapter: Adapter)

  /**
   * What surrounds a call of the service: adapter faults, operations for which the dispatch gate is closed
   * before the claim, and operations whose pre-write audit or last gate check refuses after the claim.
   */
  datatype Env = Env(faults: Faults, closed: set<OpKey>, blocked: set<OpKey>)

  datatype StepOutcome =
    | Done
    | Unknown
    | Failure(detail: string)
    | Raised(reason: string)

  // ---------- which saga is running ----------

  predicate Loaded(st: Store, plan: Plan) {
    && plan.request.execution in st.sagas
    && st.sagas[plan.request.execution].plan == plan
    && plan.request.run in st.runs
    && st.runs[plan.request.run] == plan.request.execution
  }

  predicate Running(st: Store, plan: Plan) {
    Loaded(st, plan) && st.sagas[plan.request.execution].status == InFlight
  }

  /** A stored saga of this plan is found under the plan's own run identifier. */
  predicate KeyedFor(st: Store, plan: Plan) {
    plan.request.execution in st.sagas && st.sagas[plan.request.execution].plan == plan ==> Loaded(st, plan)
  }

  function Record(sys: System, plan: Plan): SagaRecord
    requires Loaded(sys.store, plan)
  {
    sys.store.sagas[plan.request.execution]
  }

  function LiveRefs(sys: System, plan: Plan, service: Service): seq<ObjectRef>
    requires Loaded(sys.store, plan)
  {
    OfService(Live(Record(sys, plan).objects), service)
  }

  // ---------- the connector ----------

  /** A write through the connector: ownership, gate, claim, audit, and only then the adapter. */
  function Send(env: Env, sys: System, request: DirectRequest): (System, Outcome) {
    if request.verb != Add && exists id <- IdsOf(request.payload) :: !Owned(sys.store, request.run, id) then
      (sys, TransitionRejected("RUN_OWNERSHIP_REQUIRED"))
    else
      var claimed := Claim(sys.store, request, request.key !in env.closed);
      if claimed.1.Rejected? then
        (sys.(store := CancelClaim(claimed.0, request)), TransitionRejected(claimed.1.reason))
      else if request.key in env.closed + env.blocked then
        (sys.(store := CancelClaim(claimed.0, request)), TransitionRejected("WRITE_BOUNDARY_REFUSED"))
      else
        var answered := Invoke(env.faults, sys.adapter, request);
        (System(claimed.0, answered.0),
         if answered.1.Answered? && (answered.1.reply.service != request.service || answered.1.reply.verb != request.verb)
         then TransitionRejected("DIRECT_RESPONSE_TYPE_MISMATCH") else answered.1)
  }

  function ReadRequest(run: string, service: Service, ids: seq<ObjectRef>): DirectRequest {
    DirectRequest(run, RunKey(run, service, Get, ids), service, Get, IdsPayload(ids))
  }

  /** A read through the connector: it needs ownership but neither a claim nor the gate. */
  function Read(env: Env, sys: System, run: string, service: Service, ids: seq<ObjectRef>): (System, Outcome) {
    if ids == [] then (sys, TransitionRejected("DIRECT_OBJECT_IDS_INVALID"))
    else if exists id <- ids :: !Owned(sys.store, run, id) then (sys, TransitionRejected("RUN_OWNERSHIP_REQUIRED"))
    else
      var answered := Invoke(env.faults, sys.adapter, ReadRequest(run, service, ids));
      (sys.(adapter := answered.0), answered.1)
  }

  /** The state guard in front of moderation, launch and deletes. */
  predicate StateAllows(sys: System, run: string, ref: ObjectRef, allowed: set<DirectState>) {
    Owned(sys.store, run, ref) && ref in sys.adapter.objects && sys.adapter.objects[ref].state in allowed
  }

  function Escalate(outcome: Outcome): StepOutcome
    requires !outcome.Answered?
  {
    match outcome
    case DefiniteFailure(reason) => Failure(reason)
    case OutcomeUnknown => Unknown
    case TransitionRejected(reason) => Raised(reason)
  }

  // ---------- the step handlers ----------

  /** The request a step handler builds from the caller's draft and the registered objects. */
  function HandlerRequest(plan: Plan, live: seq<Created>, step: Step): Result<DirectRequest> {
    var draft := plan.request.draft;
    var campaigns, groups, ads := OfService(live, Campaigns), OfService(live, AdGroups), OfService(live, Ads);
    var run := plan.request.run;
    var key := StepKey(plan.request.execution, step);
    match step
    case CampaignAdd =>
      Ok(DirectRequest(run, key, Campaigns, Add, CampaignPayload(draft.campaignType, Suspended, draft.terms)))
    case AdGroupAdd =>
      if |campaigns| != 1 then Rejected("SAGA_CREATED_OBJECT_SET_INVALID")
      else Ok(DirectRequest(run, key, AdGroups, Add,
                            GroupPayload(campaigns[0], draft.group.name, draft.group.negativeKeywords)))
    case AdsAdd =>
      if |groups| != 1 then Rejected("SAGA_CREATED_OBJECT_SET_INVALID")
      else Ok(DirectRequest(run, key, Ads, Add, AdsPayload(groups[0], draft.group.ads)))
    case KeywordAdd =>
      if |groups| != 1 then Rejected("SAGA_CREATED_OBJECT_SET_INVALID")
      else Ok(DirectRequest(run, key, Keywords, Add, KeywordPayload(groups[0], draft.group.keyword)))
    case ModerationSubmit =>
      if ads == [] then Rejected("DIRECT_OBJECT_IDS_INVALID")
      else Ok(DirectRequest(run, key, Ads, Moderate, IdsPayload(ads)))
    case CampaignLaunch =>
      if |campaigns| != 1 then Rejected("SAGA_CREATED_OBJECT_SET_INVALID")
      else Ok(DirectRequest(run, key, Campaigns, Resume, IdPayload(campaigns[0])))
    case _ => Rejected("SAGA_STEP_HAS_NO_WRITE")
  }

  function ExpectedTypes(step: Step): seq<(Service, string)> {
    match step
    case CampaignAdd => [(Campaigns, "UNIFIED_CAMPAIGN")]
    case AdGroupAdd => [(AdGroups, "UNIFIED_AD_GROUP")]
    case AdsAdd => [(Ads, "TEXT_AD"), (Ads, "TEXT_AD")]
    case KeywordAdd => [(Keywords, "KEYWORD")]
    case _ => []
  }

  predicate TypesMatch(created: seq<Created>, step: Step) {
    var types := ExpectedTypes(step);
    |created| == |types| && forall i | 0 <= i < |types| :: (created[i].ref.service, created[i].actualType) == types[i]
  }

  function CreatedRefs(created: seq<Created>): seq<ObjectRef> {
    seq(|created|, i requires 0 <= i < |created| => created[i].ref)
  }

  function StatesOf(readback: seq<Seen>): seq<DirectState> {
    seq(|readback|, i requires 0 <= i < |readback| => readback[i].item.state)
  }

  predicate AllIn(readback: seq<Seen>, state: DirectState) {
    forall seen <- readback :: seen.item.state == state
  }

  function CloseStep(sys: System, plan: Plan, step: Step, response: Response): (r: (System, StepOutcome))
    requires Running(sys.store, plan)
    ensures Running(r.0.store, plan)
  {
    var completed := Complete(sys.store, plan.request.execution, step, response);
    if completed.1.Ok? then (sys.(store := completed.0), Done) else (sys, Raised(completed.1.reason))
  }

  /** Registers what was created before its types are checked, so that compensation can see it. */
  function CompleteAdd(sys: System, plan: Plan, step: Step, created: seq<Created>): (r: (System, StepOutcome))
    requires Running(sys.store, plan)
    ensures Running(r.0.store, plan)
  {
    var registered := Register(sys.store, plan.request.execution, step, created);
    if registered.1.Rejected? then (sys, Raised(registered.1.reason))
    else if !TypesMatch(created, step) then
      (sys.(store := registered.0), Failure("CREATED_OBJECT_TYPE_MISMATCH"))
    else CloseStep(sys.(store := registered.0), plan, step, Ids(CreatedRefs(created)))
  }

  lemma SendKeepsRunning(env: Env, sys: System, plan: Plan, request: DirectRequest)
    requires Running(sys.store, plan)
    requires request.run == plan.request.run
    ensures Running(Send(env, sys, request).0.store, plan)
  {
    hide Invoke, ExpectedRequest, WithoutClaim;
  }

  lemma RegisterKeepsRunning(st: Store, plan: Plan, step: Step, created: seq<Created>)
    requires Running(st, plan)
    ensures Running(Register(st, plan.request.execution, step, created).0, plan)
  {
    hide RefsOf, RowsOf, IsPending, DistinctRefs;
  }

  lemma ConsumeKeepsRunning(st: Store, plan: Plan)
    requires Running(st, plan)
    ensures Running(ConsumeAuthority(st, plan).0, plan)
  {
  }

  function AddStep(env: Env, sys: System, plan: Plan, step: Step): (r: (System, StepOutcome))
    requires Running(sys.store, plan) && IsAdd(step)
    ensures Running(r.0.store, plan)
  {
    var request := HandlerRequest(plan, Live(Record(sys, plan).objects), step);
    if request.Rejected? then (sys, Raised(request.reason))
    else
      SendKeepsRunning(env, sys, plan, request.value);
      var sent := Send(env, sys, request.value);
      if !sent.1.Answered? then (sent.0, Escalate(sent.1))
      else if step != CampaignAdd then CompleteAdd(sent.0, plan, step, sent.1.reply.created)
      else
        var consumed := ConsumeAuthority(sent.0.store, plan);
        if consumed.1.Rejected? then (sent.0, Unknown)
        else CompleteAdd(sent.0.(store := consumed.0), plan, step, sent.1.reply.created)
  }

  function SubmitStep(env: Env, sys: System, plan: Plan): (r: (System, StepOutcome))
    requires Running(sys.store, plan)
    ensures Running(r.0.store, plan)
  {
    var request := HandlerRequest(plan, Live(Record(sys, plan).objects), ModerationSubmit);
    if request.Rejected? then (sys, Raised(request.reason))
    else if exists id <- IdsOf(request.value.payload) :: !StateAllows(sys, plan.request.run, id, {Draft}) then
      (sys, Raised("INVALID_DIRECT_STATE_TRANSITION"))
    else
      SendKeepsRunning(env, sys, plan, request.value);
      var sent := Send(env, sys, request.value);
      if !sent.1.Answered? then (sent.0, Escalate(sent.1))
      else CloseStep(sent.0, plan, ModerationSubmit, States(StatesOf(sent.1.reply.readback)))
  }

  function ModerationStep(env: Env, sys: System, plan: Plan): (r: (System, StepOutcome))
    requires Running(sys.store, plan)
    ensures Running(r.0.store, plan)
  {
    var read := Read(env, sys, plan.request.run, Ads, LiveRefs(sys, plan, Ads));
    if !read.1.Answered? then (read.0, Escalate(read.1))
    else if !AllIn(read.1.reply.readback, Moderation) then (read.0, Failure("MODERATION_REQUEST_NOT_ACCEPTED"))
    else CloseStep(read.0, plan, ModerationReadback, States(StatesOf(read.1.reply.readback)))
  }

  function LaunchStep(env: Env, sys: System, plan: Plan): (r: (System, StepOutcome))
    requires Running(sys.store, plan)
    ensures Running(r.0.store, plan)
  {
    var request := HandlerRequest(plan, Live(Record(sys, plan).objects), CampaignLaunch);
    if request.Rejected? then (sys, Raised(request.reason))
    else if !StateAllows(sys, plan.request.run, request.value.payload.id, {Suspended}) then
      (sys, Raised("INVALID_DIRECT_STATE_TRANSITION"))
    else
      SendKeepsRunning(env, sys, plan, request.value);
      var sent := Send(env, sys, request.value);
      if !sent.1.Answered? then (sent.0, Escalate(sent.1))
      else if sent.1.reply.readback == [] || sent.1.reply.readback[0].item.state != On then
        (sent.0, Failure("CAMPAIGN_LAUNCH_READBACK_FAILED"))
      else CloseStep(sent.0, plan, CampaignLaunch, States([On]))
  }

  function SeenRefs(readback: seq<Seen>): seq<ObjectRef> {
    seq(|readback|, i requires 0 <= i < |readback| => readback[i].ref)
  }

  predicate CampaignMatches(draft: CampaignDraft, campaign: Seen) {
    campaign.item == DirectObject("UNIFIED_CAMPAIGN", On, CampaignContent(draft.terms))
  }

  predicate GroupMatches(draft: CampaignDraft, campaign: ObjectRef, group: Seen) {
    && group.item.actualType == "UNIFIED_AD_GROUP"
    && group.item.content == GroupContent(campaign, draft.group.name, draft.group.negativeKeywords)
  }

  predicate AdsMatch(draft: CampaignDraft, group: ObjectRef, ads: seq<Seen>) {
    && (forall seen <- ads :: seen.item.content.AdContent?)
    && (set seen | seen in ads && seen.item.content.AdContent? :: seen.item.content.copy.variantId)
       == (set copy | copy in draft.group.ads :: copy.variantId)
    && (forall seen <- ads, copy <- draft.group.ads ::
          seen.item.content.copy.variantId == copy.variantId ==>
          seen.item == DirectObject("TEXT_AD", Moderation, AdContent(group, copy)))
  }

  predicate KeywordMatches(draft: CampaignDraft, group: ObjectRef, keyword: Seen) {
    keyword.item == DirectObject("KEYWORD", Suspended, KeywordContent(group, draft.group.keyword))
  }

  predicate ReadbackMatches(
    draft: CampaignDraft, campaigns: seq<Seen>, groups: seq<Seen>, ads: seq<Seen>, keywords: seq<Seen>)
  {
    && |campaigns| == 1 && |groups| == 1 && |ads| == 2 && |keywords| == 1
    && CampaignMatches(draft, campaigns[0])
    && GroupMatches(draft, campaigns[0].ref, groups[0])
    && AdsMatch(draft, groups[0].ref, ads)
    && KeywordMatches(draft, groups[0].ref, keywords[0])
  }

  function FullReadbackStep(env: Env, sys: System, plan: Plan): (r: (System, StepOutcome))
    requires Running(sys.store, plan)
    ensures Running(r.0.store, plan)
  {
    var run := plan.request.run;
    var campaigns := Read(env, sys, run, Campaigns, LiveRefs(sys, plan, Campaigns));
    if !campaigns.1.Answered? then (campaigns.0, Escalate(campaigns.1))
    else
      var groups := Read(env, campaigns.0, run, AdGroups, LiveRefs(sys, plan, AdGroups));
      if !groups.1.Answered? then (groups.0, Escalate(groups.1))
      else
        var ads := Read(env, groups.0, run, Ads, LiveRefs(sys, plan, Ads));
        if !ads.1.Answered? then (ads.0, Escalate(ads.1))
        else
          var keywords := Read(env, ads.0, run, Keywords, LiveRefs(sys, plan, Keywords));
          if !keywords.1.Answered? then (keywords.0, Escalate(keywords.1))
          else
            var c, g := campaigns.1.reply.readback, groups.1.reply.readback;
            var a, k := ads.1.reply.readback, keywords.1.reply.readback;
            if !ReadbackMatches(plan.request.draft, c, g, a, k) then
              (keywords.0, Failure("FULL_CAMPAIGN_READBACK_FAILED"))
            else
              CloseStep(keywords.0, plan, FullReadback, ReadbackIds(SeenRefs(c), SeenRefs(g), SeenRefs(a), SeenRefs(k)))
  }

  function RunStep(env: Env, sys: System, plan: Plan, step: Step): (r: (System, StepOutcome))
    requires Running(sys.store, plan)
    ensures Running(r.0.store, plan)
  {
    var begun := BeginStep(Record(sys, plan), step);
    if step == CampaignAdd && StepKey(plan.request.execution, step) in env.closed then
      (sys, Raised("KILL_SWITCH_ACTIVE"))
    else if begun.Rejected? then (sys, Raised(begun.reason))
    else
      match step
      case ModerationSubmit => SubmitStep(env, sys, plan)
      case ModerationReadback => ModerationStep(env, sys, plan)
      case CampaignLaunch => LaunchStep(env, sys, plan)
      case FullReadback => FullReadbackStep(env, sys, plan)
      case _ => AddStep(env, sys, plan, step)
  }

  // ---------- reconciliation of a pending dispatch ----------

  datatype Reconciliation = Resolved | Unresolved | ReconcileRaised(reason: string)

  function Settle(sys: System, plan: Plan, status: SagaStatus, detail: string): (r: System)
    requires Loaded(sys.store, plan)
    ensures Loaded(r.store, plan)
  {
    sys.(store := Finish(sys.store, plan.request.execution, status, detail))
  }

  function Closed(closed: (System, StepOutcome)): (System, Reconciliation)
    requires !closed.1.Unknown?
  {
    (closed.0,
     match closed.1
     case Done => Resolved
     case Failure(detail) => ReconcileRaised(detail)
     case Raised(reason) => ReconcileRaised(reason))
  }

  /** Completes the pending step from the remembered reply, or closes the saga when the reply does not confirm it. */
  function ResolveWith(sys: System, plan: Plan, step: Step, reply: Reply): (r: (System, Reconciliation))
    requires Running(sys.store, plan)
    ensures Loaded(r.0.store, plan)
    ensures !r.1.Unresolved? ==> Running(r.0.store, plan)
  {
    hide Register, Complete;
    if step == CampaignAdd then
      var consumed := ConsumeAuthority(sys.store, plan);
      if consumed.1.Rejected? then
        (Settle(sys, plan, UnknownResult, "FIRST_WRITE_AUTHORITY_RECONCILIATION_FAILED"), Unresolved)
      else Closed(CompleteAdd(sys.(store := consumed.0), plan, step, reply.created))
    else if IsAdd(step) then Closed(CompleteAdd(sys, plan, step, reply.created))
    else if step == ModerationSubmit then
      if reply.readback == [] || !AllIn(reply.readback, Moderation) then
        (Settle(sys, plan, SagaStatus.Failed, "RECONCILIATION_CONFIRMED_ORIGINAL_STATE"), Unresolved)
      else Closed(CloseStep(sys, plan, step, States(StatesOf(reply.readback))))
    else if step == CampaignLaunch then
      if |reply.readback| != 1 || reply.readback[0].item.state != On then
        (Settle(sys, plan, SagaStatus.Failed, "RECONCILIATION_CONFIRMED_ORIGINAL_STATE"), Unresolved)
      else Closed(CloseStep(sys, plan, step, States([On])))
    else (Settle(sys, plan, UnknownResult, "RECONCILIATION_STEP_UNSUPPORTED"), Unresolved)
  }

  function Reconcile(sys: System, plan: Plan): (r: (System, Reconciliation))
    requires Running(sys.store, plan)
    ensures Loaded(r.0.store, plan)
    ensures !r.1.Unresolved? ==> Running(r.0.store, plan)
  {
    hide FirstPending, ResolveWith;
    var pending := FirstPending(Record(sys, plan).dispatches);
    if pending.None? then (sys, Resolved)
    else
      var step, request := pending.value.step, pending.value.request;
      if request.key !in sys.adapter.results then
        (Settle(sys, plan, UnknownResult, "READBACK_COULD_NOT_RESOLVE_DISPATCH"), Unresolved)
      else
        var reply := sys.adapter.results[request.key];
        if reply.service != request.service || reply.verb != request.verb then
          (sys, ReconcileRaised("DIRECT_RESPONSE_TYPE_MISMATCH"))
        else ResolveWith(sys, plan, step, reply)
  }

  // ---------- compensation ----------

  function DeletableStates(service: Service): set<DirectState> {
    match service
    case Campaigns => {Suspended, Archived}
    case AdGroups => {Draft, Moderation, On, Suspended, Archived}
    case Ads => {Draft, Moderation, Suspended, Archived}
    case Keywords => {Suspended}
  }

  /** The guards before a delete reaches the adapter; ad groups have no state guard. */
  predicate DeleteAllowed(sys: System, plan: Plan, ref: ObjectRef) {
    if ref.service == AdGroups then Owned(sys.store, plan.request.run, ref)
    else StateAllows(sys, plan.request.run, ref, DeletableStates(ref.service))
  }

  /** One compensation: delete, then mark; a failure leaves the row uncompensated. */
  function CompensateOne(env: Env, sys: System, plan: Plan, ref: ObjectRef): (r: (System, bool))
    requires Running(sys.store, plan)
    ensures Running(r.0.store, plan)
  {
    if !DeleteAllowed(sys, plan, ref) then (sys, false)
    else
      SendKeepsRunning(env, sys, plan, CompensationRequest(plan, ref));
      var sent := Send(env, sys, CompensationRequest(plan, ref));
      if !sent.1.Answered? then (sent.0, false)
      else (sent.0.(store := MarkCompensated(sent.0.store, plan.request.execution, ref)), true)
  }

  /** Compensates the listed objects in order and counts the failures. */
  function CompensateAll(env: Env, sys: System, plan: Plan, todo: seq<ObjectRef>): (r: (System, nat))
    requires Running(sys.store, plan)
    ensures Running(r.0.store, plan)
    decreases |todo|
  {
    if todo == [] then (sys, 0)
    else
      var one := CompensateOne(env, sys, plan, todo[0]);
      var rest := CompensateAll(env, one.0, plan, todo[1..]);
      (rest.0, if one.1 then rest.1 else rest.1 + 1)
  }

  function FinishAfterFailure(env: Env, sys: System, plan: Plan, detail: string): (r: System)
    requires Running(sys.store, plan)
    ensures Loaded(r.store, plan)
  {
    var created := CreatedRefs(Live(Record(sys, plan).objects));
    if created == [] then Settle(sys, plan, SagaStatus.Failed, detail)
    else
      var compensated := CompensateAll(env, sys, plan, Reversed(created));
      Settle(compensated.0, plan, if compensated.1 > 0 then CompensationRequired else PartiallyApplied, detail)
  }

  // ---------- execute ----------

  /** Runs the saga's steps from position `next`, at most `left` of them when a budget is given. */
  function RunSteps(env: Env, sys: System, plan: Plan, next: nat, left: Option<nat>): (r: (System, StepOutcome))
    requires Running(sys.store, plan)
    ensures Running(r.0.store, plan)
    decreases |SAGA_STEPS| - next
  {
    hide RunStep;
    if next >= |SAGA_STEPS| || left == Some(0) then (sys, Done)
    else
      var ran := RunStep(env, sys, plan, SAGA_STEPS[next]);
      if !ran.1.Done? then ran
      else RunSteps(env, ran.0, plan, next + 1, if left.Some? then Some(left.value - 1) else None)
  }

  datatype ExecuteOutcome = Returned(repeated: bool) | ExecuteRaised(reason: string)

  function LossesLeft(env: Env, sys: System): set<OpKey> {
    env.faults.lose - sys.adapter.timedOut
  }

  function FinishIfComplete(sys: System, plan: Plan): (System, ExecuteOutcome)
    requires Loaded(sys.store, plan)
  {
    (if |Record(sys, plan).steps| == |SAGA_STEPS| then Settle(sys, plan, Applied, "") else sys, Returned(false))
  }

  function Execute(env: Env, sys: System, plan: Plan, now: int, approver: Principal, maxSteps: Option<int>)
    : (System, ExecuteOutcome)
    requires KeyedFor(sys.store, plan)
    decreases LossesLeft(env, sys), 1
  {
    if !ValidDraft(plan.request.draft) then (sys, ExecuteRaised("CAMPAIGN_DRAFT_INVALID"))
    else
      var started := StartOrLoad(sys.store, plan, now, approver);
      if started.1.Rejected? then (sys, ExecuteRaised(started.1.reason))
      else if started.1.value != InFlight then (sys, Returned(true))
      else Continue(env, sys.(store := started.0), plan, now, approver, maxSteps)
  }

  /** What `execute` does once the saga is known to be in flight. */
  function Continue(env: Env, sys: System, plan: Plan, now: int, approver: Principal, maxSteps: Option<int>)
    : (System, ExecuteOutcome)
    requires Running(sys.store, plan)
    decreases LossesLeft(env, sys), 0
  {
    var first := Reconcile(sys, plan);
    if first.1.ReconcileRaised? then (first.0, ExecuteRaised(first.1.reason))
    else if first.1.Unresolved? then (first.0, Returned(false))
    else if maxSteps.Some? && maxSteps.value < 1 then (first.0, ExecuteRaised("MAX_STEPS_INVALID"))
    else
      var budget := if maxSteps.Some? then Some(maxSteps.value as nat) else None;
      var ran := RunSteps(env, first.0, plan, |Record(first.0, plan).steps|, budget);
      match ran.1
      case Raised(reason) => (ran.0, ExecuteRaised(reason))
      case Failure(detail) => FinishIfComplete(FinishAfterFailure(env, ran.0, plan, detail), plan)
      case Done => FinishIfComplete(ran.0, plan)
      case Unknown =>
        var second := Reconcile(ran.0, plan);
        if second.1.ReconcileRaised? then (second.0, ExecuteRaised(second.1.reason))
        else if second.1.Unresolved? then
          FinishIfComplete(Settle(second.0, plan, UnknownResult, "FAKE_DIRECT_OUTCOME_UNKNOWN"), plan)
        else if maxSteps.Some? then FinishIfComplete(second.0, plan)
        else
          RetryConsumesLoss(env, sys, plan, budget);
          Execute(env, second.0, plan, now, approver, None)
  }

  // ---------- an unknown outcome that reconciles used up one lost response ----------

  predicate Progressed(env: Env, sys: System, later: System, outcome: StepOutcome) {
    && sys.adapter.timedOut <= later.adapter.timedOut
    && (outcome.Unknown? ==> LossesLeft(env, later) < LossesLeft(env, sys))
  }

  lemma SendLoses(env: Env, sys: System, request: DirectRequest)
    ensures var r := Send(env, sys, request);
            && sys.adapter.timedOut <= r.0.adapter.timedOut
            && (r.1.OutcomeUnknown? ==> LossesLeft(env, r.0) < LossesLeft(env, sys))
  {
    if Send(env, sys, request).1.OutcomeUnknown? {
      assert request.key in LossesLeft(env, sys) && request.key !in LossesLeft(env, Send(env, sys, request).0);
    }
  }

  lemma ReadLoses(env: Env, sys: System, run: string, service: Service, ids: seq<ObjectRef>)
    ensures var r := Read(env, sys, run, service, ids);
            && sys.adapter.timedOut <= r.0.adapter.timedOut
            && (r.1.OutcomeUnknown? ==> LossesLeft(env, r.0) < LossesLeft(env, sys))
  {
    var r := Read(env, sys, run, service, ids);
    if r.1.OutcomeUnknown? {
      var key := ReadRequest(run, service, ids).key;
      assert key in LossesLeft(env, sys) && key !in LossesLeft(env, r.0);
    }
  }

  lemma AddStepLoses(env: Env, sys: System, plan: Plan, step: Step)
    requires Running(sys.store, plan) && IsAdd(step) && BeginStep(Record(sys, plan), step).Ok?
    ensures var r := AddStep(env, sys, plan, step);
            Progressed(env, sys, r.0, r.1)
            || (sys.adapter.timedOut <= r.0.adapter.timedOut && Reconcile(r.0, plan).1.Unresolved?)
  {
    hide Send, Live, OfService, Reconcile, CompleteAdd, BeginStep;
    var request := HandlerRequest(plan, Live(Record(sys, plan).objects), step);
    if request.Ok? {
      SendLoses(env, sys, request.value);
      SendKeepsRunning(env, sys, plan, request.value);
      var sent := Send(env, sys, request.value);
      if sent.1.Answered? {
        CompleteAddKeepsAdapter(sent.0, plan, step, sent.1.reply.created);
        if step == CampaignAdd {
          if ConsumeAuthority(sent.0.store, plan).1.Rejected? {
            UnusedAuthorityIsUnresolved(env, sys, plan, request.value);
          } else {
            CompleteAddKeepsAdapter(sent.0.(store := ConsumeAuthority(sent.0.store, plan).0), plan, step, sent.1.reply.created);
          }
        }
      }
    }
  }

  lemma CompleteAddKeepsAdapter(sys: System, plan: Plan, step: Step, created: seq<Created>)
    requires Running(sys.store, plan)
    ensures var r := CompleteAdd(sys, plan, step, created); r.0.adapter == sys.adapter && !r.1.Unknown?
  {
    hide Register, Complete, TypesMatch;
  }

  lemma UnusedAuthorityIsUnresolved(env: Env, sys: System, plan: Plan, request: DirectRequest)
    requires Running(sys.store, plan) && BeginStep(Record(sys, plan), CampaignAdd).Ok?
    requires Ok(request) == HandlerRequest(plan, Live(Record(sys, plan).objects), CampaignAdd)
    requires Send(env, sys, request).1.Answered? && ConsumeAuthority(Send(env, sys, request).0.store, plan).1.Rejected?
    ensures Reconcile(Send(env, sys, request).0, plan).1.Unresolved?
  {
    SendKeepsRunning(env, sys, plan, request);
    FirstWriteIsRemembered(env, sys, plan, request);
    SendAnswersInKind(env, sys, request);
    hide Send, Live, OfService, BeginStep, FirstPending, ConsumeAuthority, Finish, HandlerRequest;
  }

  lemma SendAnswersInKind(env: Env, sys: System, request: DirectRequest)
    requires Send(env, sys, request).1.Answered?
    ensures var reply := Send(env, sys, request).1.reply; reply.service == request.service && reply.verb == request.verb
  {
    hide Claim, CancelClaim, Invoke, Owned;
  }

  /** After an answered first write the claim is the first pending row and the adapter remembers its result. */
  lemma FirstWriteIsRemembered(env: Env, sys: System, plan: Plan, request: DirectRequest)
    requires Running(sys.store, plan) && BeginStep(Record(sys, plan), CampaignAdd).Ok?
    requires Ok(request) == HandlerRequest(plan, Live(Record(sys, plan).objects), CampaignAdd)
    requires Send(env, sys, request).1.Answered?
    ensures var sent := Send(env, sys, request).0;
            && FirstPending(Record(sent, plan).dispatches) == Some(DispatchRow(0, CampaignAdd, request, false))
            && request.key in sent.adapter.results
            && sent.adapter.results[request.key] == Send(env, sys, request).1.reply
  {
    FirstPendingOfAppended(Record(sys, plan).dispatches, DispatchRow(0, CampaignAdd, request, false));
  }

  lemma {:induction false} FirstPendingOfAppended(dispatches: seq<DispatchRow>, row: DispatchRow)
    requires FirstPending(dispatches).None? && !row.completed
    ensures FirstPending(dispatches + [row]) == Some(row)
  {
    if dispatches != [] {
      FirstPendingOfAppended(dispatches[1..], row);
      assert (dispatches + [row])[1..] == dispatches[1..] + [row];
    }
  }

  lemma ReadStepLoses(env: Env, sys: System, plan: Plan, step: Step)
    requires Running(sys.store, plan) && !IsWrite(step)
    ensures var r := RunStep(env, sys, plan, step);
            Progressed(env, sys, r.0, r.1)
  {
    hide Read, Live, OfService, Complete, ReadbackMatches, AllIn, StatesOf, SeenRefs, BeginStep;
    var run := plan.request.run;
    if step == ModerationReadback {
      ReadLoses(env, sys, run, Ads, LiveRefs(sys, plan, Ads));
    } else {
      ReadLoses(env, sys, run, Campaigns, LiveRefs(sys, plan, Campaigns));
      var campaigns := Read(env, sys, run, Campaigns, LiveRefs(sys, plan, Campaigns)).0;
      ReadLoses(env, campaigns, run, AdGroups, LiveRefs(sys, plan, AdGroups));
      var groups := Read(env, campaigns, run, AdGroups, LiveRefs(sys, plan, AdGroups)).0;
      ReadLoses(env, groups, run, Ads, LiveRefs(sys, plan, Ads));
      var ads := Read(env, groups, run, Ads, LiveRefs(sys, plan, Ads)).0;
      ReadLoses(env, ads, run, Keywords, LiveRefs(sys, plan, Keywords));
    }
  }

  lemma MoveStepLoses(env: Env, sys: System, plan: Plan, step: Step)
    requires Running(sys.store, plan) && step in {ModerationSubmit, CampaignLaunch}
    ensures var r := RunStep(env, sys, plan, step);
            Progressed(env, sys, r.0, r.1)
  {
    hide Send, Live, OfService, Complete, AllIn, StatesOf, BeginStep, StateAllows;
    var request := HandlerRequest(plan, Live(Record(sys, plan).objects), step);
    if request.Ok? {
      SendLoses(env, sys, request.value);
    }
  }

  lemma StepLoses(env: Env, sys: System, plan: Plan, step: Step)
    requires Running(sys.store, plan)
    ensures var r := RunStep(env, sys, plan, step);
            && sys.adapter.timedOut <= r.0.adapter.timedOut
            && (r.1.Unknown? ==> LossesLeft(env, r.0) < LossesLeft(env, sys) || Reconcile(r.0, plan).1.Unresolved?)
  {
    hide AddStep, Reconcile;
    if !IsWrite(step) {
      ReadStepLoses(env, sys, plan, step);
    } else if !IsAdd(step) {
      MoveStepLoses(env, sys, plan, step);
    } else if BeginStep(Record(sys, plan), step).Ok? {
      AddStepLoses(env, sys, plan, step);
    }
  }

  lemma {:induction false} StepsLose(env: Env, sys: System, plan: Plan, next: nat, left: Option<nat>)
    requires Running(sys.store, plan)
    ensures var r := RunSteps(env, sys, plan, next, left);
            && sys.adapter.timedOut <= r.0.adapter.timedOut
            && (r.1.Unknown? ==> LossesLeft(env, r.0) < LossesLeft(env, sys) || Reconcile(r.0, plan).1.Unresolved?)
    decreases |SAGA_STEPS| - next
  {
    hide RunStep, Reconcile;
    if next < |SAGA_STEPS| && left != Some(0) {
      StepLoses(env, sys, plan, SAGA_STEPS[next]);
      var ran := RunStep(env, sys, plan, SAGA_STEPS[next]);
      if ran.1.Done? {
        StepsLose(env, ran.0, plan, next + 1, if left.Some? then Some(left.value - 1) else None);
      }
    }
  }

  lemma ReconcileKeepsAdapter(sys: System, plan: Plan)
    requires Running(sys.store, plan)
    ensures Reconcile(sys, plan).0.adapter == sys.adapter
  {
    hide Register, Complete, ConsumeAuthority, Finish;
  }

  lemma {:induction false} RetryConsumesLoss(env: Env, sys: System, plan: Plan, budget: Option<nat>)
    requires Running(sys.store, plan) && Reconcile(sys, plan).1.Resolved?
    ensures var first := Reconcile(sys, plan).0;
            var ran := RunSteps(env, first, plan, |Record(first, plan).steps|, budget);
            ran.1.Unknown? && Reconcile(ran.0, plan).1.Resolved? ==>
              LossesLeft(env, Reconcile(ran.0, plan).0) < LossesLeft(env, sys)
  {
    hide RunSteps, Reconcile;
    var first := Reconcile(sys, plan).0;
    ReconcileKeepsAdapter(sys, plan);
    StepsLose(env, first, plan, |Record(first, plan).steps|, budget);
    ReconcileKeepsAdapter(RunSteps(env, first, plan, |Record(first, plan).steps|, budget).0, plan);
  }
}
