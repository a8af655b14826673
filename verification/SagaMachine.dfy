/**
 * The service as a machine that can stop anywhere: one event is one commit, one adapter call, or a crash.
 * The volatile position is lost by a crash; the store and the adapter survive. A disabled event changes nothing,
 * so a run is any sequence of events.
 */
module SagaMachine {
  import opened Basics
  import opened CampaignTypes
  import opened DirectAdapter
  import opened SagaStore
  import opened SagaService

  /** How the reply in hand was obtained: from the call itself or by reconciliation. */
  datatype Origin = Called | AtStart | AfterUnknown

  datatype Position =
    | Idle
    | Working(plan: Plan)
    | Claimed(plan: Plan, step: Step, request: DirectRequest)
    | Replied(plan: Plan, step: Step, reply: Reply, origin: Origin)
    | Authorized(plan: Plan, reply: Reply, origin: Origin)
    | Registered(plan: Plan, step: Step, created: seq<Created>, origin: Origin)
    | Reconciling(plan: Plan, origin: Origin)
    | Abandoned(plan: Plan)
    | Compensating(plan: Plan, todo: seq<ObjectRef>, failures: nat, nothing: bool, detail: string)
    | Deleted(plan: Plan, ref: ObjectRef, todo: seq<ObjectRef>, failures: nat, detail: string)

  datatype Config = Config(sys: System, at: Position)

  datatype Event =
    | Crash
    | Drift(objects: map<ObjectRef, DirectObject>)
    | AddReservation(id: string, reservation: Reservation)
    | AddApproval(id: string, approval: Approval)
    | Begin(plan: Plan, now: int, approver: Principal)
    | ClaimWrite(gateOpen: bool)
    | RefuseWrite
    | SendWrite(faults: Faults)
    | Recover
    | UseAuthority
    | RegisterObjects
    | CloseWrite
    | ReadOnly(faults: Faults, service: Service)
    | RunReadStep(env: Env)
    | Abandon
    | DeleteNext(env: Env)
    | MarkDeleted
    | FinishCompensation
    | FinishApplied

  // ---------- one event ----------

  function StartCompensation(sys: System, plan: Plan, detail: string): Position
    requires Loaded(sys.store, plan)
  {
    var created := CreatedRefs(Live(Record(sys, plan).objects));
    Compensating(plan, Reversed(created), 0, created == [], detail)
  }

  /** Where the service goes when reconciliation did not resolve the dispatch. */
  function GiveUp(plan: Plan, origin: Origin): Position {
    if origin == AfterUnknown then Abandoned(plan) else Idle
  }

  function DoBegin(c: Config, plan: Plan, now: int, approver: Principal): Config {
    var started := StartOrLoad(c.sys.store, plan, now, approver);
    if !c.at.Idle? || !ValidDraft(plan.request.draft) || started.1 != Ok(InFlight) then c
    else
      Config(c.sys.(store := started.0),
             if FirstPending(started.0.sagas[plan.request.execution].dispatches).None? then Working(plan)
             else Reconciling(plan, AtStart))
  }

  function NextStep(record: SagaRecord): Option<Step> {
    if |record.steps| < |SAGA_STEPS| then Some(SAGA_STEPS[|record.steps|]) else None
  }

  function DoClaim(c: Config, gateOpen: bool): Config {
    if !c.at.Working? || !Running(c.sys.store, c.at.plan) then c
    else
      var record := Record(c.sys, c.at.plan);
      var next := NextStep(record);
      if next.None? || !IsWrite(next.value) || BeginStep(record, next.value).Rejected? then c
      else
        var request := HandlerRequest(c.at.plan, Live(record.objects), next.value);
        if request.Rejected? then c
        else
          var claimed := Claim(c.sys.store, request.value, gateOpen);
          if claimed.1 == Ok(true)
          then Config(c.sys.(store := claimed.0), Claimed(c.at.plan, next.value, request.value))
          else Config(c.sys.(store := CancelClaim(claimed.0, request.value)), Idle)
  }

  function DoSend(c: Config, faults: Faults): Config {
    if !c.at.Claimed? || !Loaded(c.sys.store, c.at.plan) then c
    else
      var answered := Invoke(faults, c.sys.adapter, c.at.request);
      var sys := c.sys.(adapter := answered.0);
      Config(sys,
             match answered.1
             case Answered(reply) => Replied(c.at.plan, c.at.step, reply, Called)
             case DefiniteFailure(reason) => StartCompensation(sys, c.at.plan, reason)
             case OutcomeUnknown => Reconciling(c.at.plan, AfterUnknown)
             case TransitionRejected(_) => Idle)
  }

  function DoRecover(c: Config): Config {
    if !c.at.Reconciling? || !Running(c.sys.store, c.at.plan) then c
    else
      var pending := FirstPending(Record(c.sys, c.at.plan).dispatches);
      if pending.None? then Config(c.sys, Working(c.at.plan))
      else if pending.value.request.key !in c.sys.adapter.results then
        Config(Settle(c.sys, c.at.plan, UnknownResult, "READBACK_COULD_NOT_RESOLVE_DISPATCH"),
               GiveUp(c.at.plan, c.at.origin))
      else
        Config(c.sys, Replied(c.at.plan, pending.value.step, c.sys.adapter.results[pending.value.request.key], c.at.origin))
  }

  function DoUseAuthority(c: Config): Config {
    if !c.at.Replied? || c.at.step != CampaignAdd || !Running(c.sys.store, c.at.plan) then c
    else
      var consumed := ConsumeAuthority(c.sys.store, c.at.plan);
      if consumed.1.Ok? then Config(c.sys.(store := consumed.0), Authorized(c.at.plan, c.at.reply, c.at.origin))
      else if c.at.origin == Called then Config(c.sys, Reconciling(c.at.plan, AfterUnknown))
      else
        Config(Settle(c.sys, c.at.plan, UnknownResult, "FIRST_WRITE_AUTHORITY_RECONCILIATION_FAILED"),
               GiveUp(c.at.plan, c.at.origin))
  }

  function RegisterAt(c: Config, plan: Plan, step: Step, created: seq<Created>, origin: Origin): Config
    requires Loaded(c.sys.store, plan)
  {
    var registered := Register(c.sys.store, plan.request.execution, step, created);
    if registered.1.Ok? then Config(c.sys.(store := registered.0), Registered(plan, step, created, origin))
    else Config(c.sys, Idle)
  }

  function DoRegister(c: Config): Config {
    if c.at.Replied? && IsAdd(c.at.step) && c.at.step != CampaignAdd && Running(c.sys.store, c.at.plan) then
      RegisterAt(c, c.at.plan, c.at.step, c.at.reply.created, c.at.origin)
    else if c.at.Authorized? && Running(c.sys.store, c.at.plan) then
      RegisterAt(c, c.at.plan, CampaignAdd, c.at.reply.created, c.at.origin)
    else c
  }

  function CloseAt(c: Config, plan: Plan, step: Step, response: Response): Config
    requires Running(c.sys.store, plan)
  {
    var closed := CloseStep(c.sys, plan, step, response);
    Config(closed.0, if closed.1.Done? then Working(plan) else Idle)
  }

  function DoClose(c: Config): Config {
    if c.at.Registered? && Running(c.sys.store, c.at.plan) then
      if TypesMatch(c.at.created, c.at.step) then CloseAt(c, c.at.plan, c.at.step, Ids(CreatedRefs(c.at.created)))
      else Config(c.sys, if c.at.origin == Called then StartCompensation(c.sys, c.at.plan, "CREATED_OBJECT_TYPE_MISMATCH") else Idle)
    else if c.at.Replied? && c.at.step == ModerationSubmit && Running(c.sys.store, c.at.plan) then
      if c.at.origin == Called || (c.at.reply.readback != [] && AllIn(c.at.reply.readback, Moderation))
      then CloseAt(c, c.at.plan, ModerationSubmit, States(StatesOf(c.at.reply.readback)))
      else Config(Settle(c.sys, c.at.plan, SagaStatus.Failed, "RECONCILIATION_CONFIRMED_ORIGINAL_STATE"),
                  GiveUp(c.at.plan, c.at.origin))
    else if c.at.Replied? && c.at.step == CampaignLaunch && Running(c.sys.store, c.at.plan) then
      if c.at.reply.readback != [] && c.at.reply.readback[0].item.state == On
         && (c.at.origin == Called || |c.at.reply.readback| == 1)
      then CloseAt(c, c.at.plan, CampaignLaunch, States([On]))
      else if c.at.origin == Called then Config(c.sys, StartCompensation(c.sys, c.at.plan, "CAMPAIGN_LAUNCH_READBACK_FAILED"))
      else Config(Settle(c.sys, c.at.plan, SagaStatus.Failed, "RECONCILIATION_CONFIRMED_ORIGINAL_STATE"),
                  GiveUp(c.at.plan, c.at.origin))
    else c
  }

  /** A read whose answer is used by nothing durable. */
  function DoReadOnly(c: Config, faults: Faults, service: Service): Config {
    if !c.at.Working? || !Running(c.sys.store, c.at.plan) then c
    else
      var env := Env(faults, {}, {});
      Config(Read(env, c.sys, c.at.plan.request.run, service, LiveRefs(c.sys, c.at.plan, service)).0, c.at)
  }

  function DoReadStep(c: Config, env: Env): Config {
    if !c.at.Working? || !Running(c.sys.store, c.at.plan) then c
    else
      var next := NextStep(Record(c.sys, c.at.plan));
      if next.None? || IsWrite(next.value) then c
      else
        var ran := RunStep(env, c.sys, c.at.plan, next.value);
        Config(ran.0,
               match ran.1
               case Done => Working(c.at.plan)
               case Unknown => Reconciling(c.at.plan, AfterUnknown)
               case Failure(detail) => StartCompensation(ran.0, c.at.plan, detail)
               case Raised(_) => Idle)
  }

  function DoAbandon(c: Config): Config {
    if !c.at.Abandoned? || !Loaded(c.sys.store, c.at.plan) then c
    else Config(Settle(c.sys, c.at.plan, UnknownResult, "FAKE_DIRECT_OUTCOME_UNKNOWN"), Idle)
  }

  function DoDelete(c: Config, env: Env): Config {
    if !c.at.Compensating? || c.at.todo == [] || !Running(c.sys.store, c.at.plan) then c
    else
      var ref, rest := c.at.todo[0], c.at.todo[1..];
      if !DeleteAllowed(c.sys, c.at.plan, ref) then
        Config(c.sys, Compensating(c.at.plan, rest, c.at.failures + 1, c.at.nothing, c.at.detail))
      else
        var sent := Send(env, c.sys, CompensationRequest(c.at.plan, ref));
        Config(sent.0,
               if sent.1.Answered? then Deleted(c.at.plan, ref, rest, c.at.failures, c.at.detail)
               else Compensating(c.at.plan, rest, c.at.failures + 1, c.at.nothing, c.at.detail))
  }

  function DoMark(c: Config): Config {
    if !c.at.Deleted? || !Running(c.sys.store, c.at.plan) then c
    else
      Config(c.sys.(store := MarkCompensated(c.sys.store, c.at.plan.request.execution, c.at.ref)),
             Compensating(c.at.plan, c.at.todo, c.at.failures, false, c.at.detail))
  }

  function DoFinishCompensation(c: Config): Config {
    if !c.at.Compensating? || c.at.todo != [] || !Running(c.sys.store, c.at.plan) then c
    else
      var status := if c.at.nothing then SagaStatus.Failed
                    else if c.at.failures > 0 then CompensationRequired else PartiallyApplied;
      Config(Settle(c.sys, c.at.plan, status, c.at.detail), Idle)
  }

  function DoFinishApplied(c: Config): Config {
    if !c.at.Working? || !Running(c.sys.store, c.at.plan)
       || |Record(c.sys, c.at.plan).steps| != |SAGA_STEPS| then c
    else Config(Settle(c.sys, c.at.plan, Applied, ""), Idle)
  }

  function Next(c: Config, event: Event): Config {
    match event
    case Crash => c.(at := Idle)
    case Drift(objects) =>
      if objects.Keys == c.sys.adapter.objects.Keys
      then c.(sys := c.sys.(adapter := c.sys.adapter.(objects := objects))) else c
    case AddReservation(id, reservation) =>
      c.(sys := c.sys.(store := RegisterReservation(c.sys.store, id, reservation).0))
    case AddApproval(id, approval) =>
      c.(sys := c.sys.(store := RegisterApproval(c.sys.store, id, approval).0))
    case Begin(plan, now, approver) => DoBegin(c, plan, now, approver)
    case ClaimWrite(gateOpen) => DoClaim(c, gateOpen)
    case RefuseWrite =>
      if c.at.Claimed? then Config(c.sys.(store := CancelClaim(c.sys.store, c.at.request)), Idle) else c
    case SendWrite(faults) => DoSend(c, faults)
    case Recover => DoRecover(c)
    case UseAuthority => DoUseAuthority(c)
    case RegisterObjects => DoRegister(c)
    case CloseWrite => DoClose(c)
    case ReadOnly(faults, service) => DoReadOnly(c, faults, service)
    case RunReadStep(env) => DoReadStep(c, env)
    case Abandon => DoAbandon(c)
    case DeleteNext(env) => DoDelete(c, env)
    case MarkDeleted => DoMark(c)
    case FinishCompensation => DoFinishCompensation(c)
    case FinishApplied => DoFinishApplied(c)
  }

  function RunEvents(c: Config, events: seq<Event>): Config
    decreases |events|
  {
    if events == [] then c else RunEvents(Next(c, events[0]), events[1..])
  }
}
