/**
 * The control database shared by the approval path and the mandate path: executions, single-use approvals,
 * mandates with their consumptions, and kill switches. One function is one transaction.
 */
module ExecutionLedger {
  import opened Basics
  import opened Commands

  datatype Status =
    | Reserved
    | InFlight
    | Applied
    | NoChange
    | Blocked
    | UnknownResult
    | Failed
    | AlreadyProcessed

  datatype Execution = Execution(change: PreparedChange, status: Status)

  /** `reserved` and `used` hold the execution key the approval is reserved for, and was used by. */
  datatype Approval = Approval(
    binding: PreparedChange, approver: string, expires: int, revoked: bool,
    reserved: Option<ExecutionKey>, used: Option<ExecutionKey>)

  datatype MandateStatus = Issued | Active | Revoked

  datatype MandateTerms = MandateTerms(
    organization: string, connection: string, account: string, targets: set<string>,
    allowed: set<OptimizationAction>, prohibited: set<OptimizationAction>, policy: string, expiry: int,
    totalLimit: int, dailyLimit: int, maximumStep: int, maximumDailyChange: int, actionsPer24Hours: int,
    observation: int)

  datatype Mandate = Mandate(terms: MandateTerms, status: MandateStatus)

  datatype Consumption = Consumption(
    key: ExecutionKey, mandate: string, target: string, exposure: int, step: int, at: int, until: int)

  datatype Recheck = Recheck(key: ExecutionKey, mandate: string, previous: Status, at: int)

  datatype Ledger = Ledger(
    executions: map<ExecutionKey, Execution>,
    approvals: map<string, Approval>,
    mandates: map<string, Mandate>,
    consumptions: seq<Consumption>,
    rechecks: seq<Recheck>,
    switches: map<string, bool>)

  const EMPTY_LEDGER := Ledger(map[], map[], map[], [], [], map[])

  /** The sidecar's active signals. */
  datatype Signal = KillSignal(scope: string) | RevokedSignal(mandate: string)

  /** What a transaction answers: it moved the execution, it found one, or it was refused. */
  datatype Answer = Moved | Standing(status: Status) | Refused(reason: string)

  // ---------- reading rows ----------

  predicate IsActive(status: Status) {
    status == Reserved || status == InFlight
  }

  predicate AnyUnknown(l: Ledger) {
    exists k | k in l.executions :: l.executions[k].status == UnknownResult
  }

  predicate AnyActive(l: Ledger) {
    exists k | k in l.executions :: IsActive(l.executions[k].status)
  }

  function KillScopes(scope: Scope): set<string> {
    {"global", "organization:" + scope.organization, "connection:" + scope.connection, "campaign:" + scope.campaign}
  }

  predicate SwitchOn(switches: map<string, bool>, scope: Scope) {
    exists s <- KillScopes(scope) :: s in switches && switches[s]
  }

  predicate Signalled(signals: set<Signal>, scope: Scope) {
    exists s <- KillScopes(scope) :: KillSignal(s) in signals
  }

  /** A kill switch check that reads both stores. */
  predicate Stopped(l: Ledger, signals: set<Signal>, scope: Scope) {
    SwitchOn(l.switches, scope) || Signalled(signals, scope)
  }

  function With(l: Ledger, change: PreparedChange, status: Status): Ledger {
    l.(executions := l.executions[KeyOf(change) := Execution(change, status)])
  }

  function Marked(l: Ledger, key: ExecutionKey, status: Status): Ledger
    requires key in l.executions
  {
    l.(executions := l.executions[key := l.executions[key].(status := status)])
  }

  // ---------- the approval path ----------

  /** Unused, unrevoked, unreserved, unexpired, and bound to exactly this change. */
  predicate Applicable(l: Ledger, id: string, change: PreparedChange, now: int) {
    && id in l.approvals
    && l.approvals[id].used.None? && !l.approvals[id].revoked && l.approvals[id].reserved.None?
    && l.approvals[id].binding == change
    && now < l.approvals[id].expires
  }

  function Reserving(l: Ledger, id: string, key: ExecutionKey): Ledger
    requires id in l.approvals
  {
    l.(approvals := l.approvals[id := l.approvals[id].(reserved := Some(key))])
  }

  /** The first transaction of `send_once`: approval reserved and execution in flight, together or not at all. */
  function SendOnce(l: Ledger, signals: set<Signal>, change: PreparedChange, id: string, now: int): (Ledger, Answer) {
    var key := KeyOf(change);
    if AnyUnknown(l) then (l, Refused("UNKNOWN_RESULT"))
    else if key in l.executions then
      var status := l.executions[key].status;
      (l, Standing(if IsActive(status) || status in {Applied, NoChange} then AlreadyProcessed else status))
    else if AnyActive(l) then (l, Standing(Blocked))
    else if Stopped(l, signals, change.scope) then (l, Refused("KILL_SWITCH_ACTIVE"))
    else if !Applicable(l, id, change, now) then (l, Refused("APPROVAL_NOT_APPLICABLE"))
    else (With(Reserving(l, id, key), change, InFlight), Moved)
  }

  predicate Consumable(l: Ledger, id: string, key: ExecutionKey, now: int) {
    && id in l.approvals
    && l.approvals[id].reserved == Some(key)
    && l.approvals[id].used.None? && !l.approvals[id].revoked
    && now < l.approvals[id].expires
  }

  /** The last transaction before transport: no switch is on, and the reserved approval is used up. */
  function ConsumeRows(l: Ledger, change: PreparedChange, id: string, now: int): (Ledger, Answer) {
    var key := KeyOf(change);
    if SwitchOn(l.switches, change.scope) then (l, Refused("KILL_SWITCH_ACTIVE"))
    else if !Consumable(l, id, key, now) then (l, Refused("APPROVAL_NOT_APPLICABLE"))
    else (l.(approvals := l.approvals[id := l.approvals[id].(used := Some(key))]), Moved)
  }

  /** The approval path's last check, undisturbed: the sidecar is read before that transaction begins. */
  function ConsumeReserved(l: Ledger, signals: set<Signal>, change: PreparedChange, id: string, now: int): (Ledger, Answer) {
    if Signalled(signals, change.scope) then (l, Refused("KILL_SWITCH_ACTIVE")) else ConsumeRows(l, change, id, now)
  }

  function ReleaseReservation(l: Ledger, id: string, key: ExecutionKey): Ledger {
    if id in l.approvals && l.approvals[id].reserved == Some(key) && l.approvals[id].used.None?
    then l.(approvals := l.approvals[id := l.approvals[id].(reserved := None)]) else l
  }

  /** Reserves an execution that will not write: the value is already at its target. */
  function ReserveExecution(l: Ledger, change: PreparedChange): (Ledger, Answer) {
    var key := KeyOf(change);
    if AnyUnknown(l) then (l, Refused("UNKNOWN_RESULT"))
    else if key in l.executions then
      var status := l.executions[key].status;
      (l, Standing(if status in {Applied, NoChange} then AlreadyProcessed else status))
    else if AnyActive(l) then (l, Standing(Blocked))
    else (With(l, change, Reserved), Moved)
  }

  function BeginExecution(l: Ledger, change: PreparedChange, id: string, now: int): (Ledger, Answer) {
    var key := KeyOf(change);
    if !Applicable(l, id, change, now) then (l, Refused("APPROVAL_NOT_APPLICABLE"))
    else if !(key in l.executions && l.executions[key].status == Reserved) then (l, Refused("EXECUTION_CONFLICT"))
    else (Marked(Reserving(l, id, key), key, InFlight), Moved)
  }

  predicate IsFinal(status: Status) {
    status in {Applied, NoChange, Blocked, UnknownResult, Failed}
  }

  /** Only an active execution can be finished; repeating the recorded status is harmless. */
  function Finish(l: Ledger, key: ExecutionKey, status: Status): (Ledger, Answer)
    requires IsFinal(status)
  {
    if key in l.executions && IsActive(l.executions[key].status) then (Marked(l, key, status), Moved)
    else if key in l.executions && l.executions[key].status == status then (l, Standing(status))
    else (l, Refused("ILLEGAL_EXECUTION_TRANSITION"))
  }

  const APPROVER := "sviridov"

  /** An approval is written once; granting the same approval again changes nothing. */
  function Grant(l: Ledger, id: string, change: PreparedChange, approver: string, reason: string, expires: int, now: int)
    : (Ledger, Result<()>)
  {
    if approver != APPROVER then (l, Rejected("UNAUTHENTICATED_PRINCIPAL"))
    else if IsBlank(reason) then (l, Rejected("INVALID_INPUT"))
    else if expires <= now then (l, Rejected("APPROVAL_EXPIRED"))
    else if id in l.approvals then (l, Ok(()))
    else (l.(approvals := l.approvals[id := Approval(change, approver, expires, false, None, None)]), Ok(()))
  }

  function RevokeApproval(l: Ledger, id: string, principal: string): (Ledger, Result<()>) {
    if id !in l.approvals || l.approvals[id].approver != principal then (l, Rejected("APPROVAL_NOT_FOUND"))
    else if l.approvals[id].used.Some? then (l, Rejected("APPROVAL_ALREADY_USED"))
    else (l.(approvals := l.approvals[id := l.approvals[id].(revoked := true)]), Ok(()))
  }

  // ---------- mandates ----------

  const HOUR := 3_600_000_000
  const DAY := 24 * HOUR

  /** Every limit of a mandate is positive; the policy's own maxima are not part of this model. */
  predicate SoundTerms(terms: MandateTerms) {
    && terms.totalLimit > 0 && terms.dailyLimit > 0 && terms.maximumStep > 0 && terms.maximumDailyChange > 0
    && terms.actionsPer24Hours > 0 && terms.observation >= 0
  }

  function Issue(l: Ledger, id: string, terms: MandateTerms): (Ledger, Result<()>) {
    if !SoundTerms(terms) then (l, Rejected("MANDATE_LIMIT_WIDENED"))
    else if id in l.mandates then
      if l.mandates[id].terms == terms then (l, Ok(())) else (l, Rejected("IMMUTABLE_MANDATE_CONFLICT"))
    else (l.(mandates := l.mandates[id := Mandate(terms, Issued)]), Ok(()))
  }

  function Activate(l: Ledger, id: string, now: int): (Ledger, Result<()>) {
    if id !in l.mandates then (l, Rejected("MANDATE_NOT_FOUND"))
    else
      var mandate := l.mandates[id];
      if mandate.status == Revoked then (l, Rejected("MANDATE_REACTIVATION_FORBIDDEN"))
      else if mandate.status == Active then (l, Ok(()))
      else if mandate.terms.expiry <= now then (l, Rejected("MANDATE_EXPIRED"))
      else (l.(mandates := l.mandates[id := mandate.(status := Active)]), Ok(()))
  }

  /** The second half of a revocation; the sidecar signal was committed before. */
  function RevokeMandate(l: Ledger, id: string): (Ledger, Result<()>) {
    if id !in l.mandates then (l, Rejected("MANDATE_NOT_FOUND"))
    else (l.(mandates := l.mandates[id := l.mandates[id].(status := Revoked)]), Ok(()))
  }

  function MandateProblem(l: Ledger, signals: set<Signal>, id: string, now: int): Option<string> {
    if id !in l.mandates then Some("MANDATE_NOT_FOUND")
    else if l.mandates[id].status == Revoked then Some("MANDATE_REVOKED")
    else if l.mandates[id].status != Active then Some("MANDATE_INACTIVE")
    else if l.mandates[id].terms.expiry <= now then Some("MANDATE_EXPIRED")
    else if RevokedSignal(id) in signals then Some("MANDATE_REVOKED")
    else None
  }

  function BindingProblem(terms: MandateTerms, change: PreparedChange): Option<string> {
    if change.scope.organization != terms.organization || change.scope.connection != terms.connection
       || change.scope.account != terms.account || change.scope.campaign !in terms.targets
    then Some("MANDATE_TARGET_MISMATCH")
    else if change.action !in terms.allowed || change.action in terms.prohibited then Some("UNSUPPORTED_ACTION")
    else if change.policy != terms.policy then Some("POLICY_VERSION_MISMATCH")
    else None
  }

  function Exposure(change: PreparedChange): Result<int> {
    if RelativePercent(change.action).None? then Ok(0)
    else if !change.source.Number? || !change.target.Number? then Rejected("INVALID_INPUT")
    else Ok(RoundHalfUp(Abs(change.source.n - change.target.n), 1_000_000))
  }

  function StepPercent(change: PreparedChange): Result<int> {
    if RelativePercent(change.action).None? then Ok(0)
    else if !change.diff.StepDiff? then Rejected("INVALID_INPUT")
    else Ok(Abs(change.diff.percent))
  }

  function TotalExposure(consumptions: seq<Consumption>, mandate: string): int {
    if consumptions == [] then 0
    else
      var last := Last(consumptions);
      TotalExposure(consumptions[..|consumptions| - 1], mandate) + if last.mandate == mandate then last.exposure else 0
  }

  function DayOf(time: int): int {
    time / DAY
  }

  function DailyExposure(consumptions: seq<Consumption>, mandate: string, day: int): int {
    if consumptions == [] then 0
    else
      var last := Last(consumptions);
      DailyExposure(consumptions[..|consumptions| - 1], mandate, day)
      + if last.mandate == mandate && DayOf(last.at) == day then last.exposure else 0
  }

  function DailySteps(consumptions: seq<Consumption>, mandate: string, day: int): int {
    if consumptions == [] then 0
    else
      var last := Last(consumptions);
      DailySteps(consumptions[..|consumptions| - 1], mandate, day)
      + if last.mandate == mandate && DayOf(last.at) == day then last.step else 0
  }

  /** How many consumptions of the mandate were reserved after `from` and no later than `to`, when `to` is given. */
  function CountWithin(consumptions: seq<Consumption>, mandate: string, from: int, to: Option<int>): nat {
    if consumptions == [] then 0
    else
      var last := Last(consumptions);
      CountWithin(consumptions[..|consumptions| - 1], mandate, from, to)
      + if last.mandate == mandate && from < last.at && (to.Some? ==> last.at <= to.value) then 1 else 0
  }

  predicate Observed(consumptions: seq<Consumption>, target: string, now: int) {
    exists c <- consumptions :: c.target == target && c.until > now
  }

  function QuotaProblem(l: Ledger, id: string, change: PreparedChange, exposure: int, now: int): Option<string>
    requires id in l.mandates
  {
    var terms := l.mandates[id].terms;
    var step := StepPercent(change);
    if TotalExposure(l.consumptions, id) + exposure > terms.totalLimit then Some("MONETARY_CAP_REACHED")
    else if CountWithin(l.consumptions, id, now - DAY, None) >= terms.actionsPer24Hours then Some("ACTION_QUOTA_REACHED")
    else if Observed(l.consumptions, change.scope.campaign, now) then Some("OBSERVATION_WINDOW_ACTIVE")
    else if DailyExposure(l.consumptions, id, DayOf(now)) + exposure > terms.dailyLimit then Some("DAILY_MONETARY_LIMIT_REACHED")
    else if step.Rejected? then Some(step.reason)
    else if step.value > terms.maximumStep then Some("STEP_LIMIT_EXCEEDED")
    else if DailySteps(l.consumptions, id, DayOf(now)) + step.value > terms.maximumDailyChange then
      Some("DAILY_CHANGE_LIMIT_EXCEEDED")
    else None
  }

  /** Reserves an execution under a mandate and charges its quotas, in one transaction. */
  function MandateReserve(l: Ledger, signals: set<Signal>, change: PreparedChange, id: string, now: int): (Ledger, Answer) {
    var key := KeyOf(change);
    var exposure := Exposure(change);
    var problem := MandateProblem(l, signals, id, now);
    if exposure.Rejected? then (l, Refused(exposure.reason))
    else if problem.Some? then (l, Refused(problem.value))
    else if BindingProblem(l.mandates[id].terms, change).Some? then
      (l, Refused(BindingProblem(l.mandates[id].terms, change).value))
    else if key in l.executions then
      var status := l.executions[key].status;
      (l, Standing(if status in {Applied, NoChange} then AlreadyProcessed else status))
    else if AnyUnknown(l) then (l, Refused("UNKNOWN_RESULT"))
    else if AnyActive(l) then (l, Standing(Blocked))
    else if SwitchOn(l.switches, change.scope) then (l, Refused("KILL_SWITCH_ACTIVE"))
    else
      var quota := QuotaProblem(l, id, change, exposure.value, now);
      if quota.Some? then (l, Refused(quota.value))
      else
        var until := now + l.mandates[id].terms.observation;
        var consumption := Consumption(key, id, change.scope.campaign, exposure.value, StepPercent(change).value, now, until);
        (With(l, change, Reserved).(consumptions := l.consumptions + [consumption]), Moved)
  }

  predicate ConsumedBy(l: Ledger, key: ExecutionKey, id: string) {
    exists c <- l.consumptions :: c.key == key && c.mandate == id
  }

  /** The first transaction of the mandate path's `send_once`. */
  function MandateSend(l: Ledger, signals: set<Signal>, change: PreparedChange, id: string, now: int): (Ledger, Answer) {
    var key := KeyOf(change);
    var problem := MandateProblem(l, signals, id, now);
    if problem.Some? then (l, Refused(problem.value))
    else if BindingProblem(l.mandates[id].terms, change).Some? then
      (l, Refused(BindingProblem(l.mandates[id].terms, change).value))
    else if key !in l.executions then (l, Refused("EXECUTION_NOT_FOUND"))
    else if l.executions[key].status != Reserved then
      var status := l.executions[key].status;
      (l, Standing(if status in {Applied, NoChange} then AlreadyProcessed else status))
    else if !ConsumedBy(l, key, id) then (l, Refused("MANDATE_RESERVATION_MISMATCH"))
    else if SwitchOn(l.switches, change.scope) then (l, Refused("KILL_SWITCH_ACTIVE"))
    else (Marked(l, key, InFlight), Moved)
  }

  /** The mandate's own row, read alone. */
  predicate MandateStands(l: Ledger, id: string, now: int) {
    id in l.mandates && l.mandates[id].status == Active && now < l.mandates[id].terms.expiry
  }

  /** The mandate path's last check before transport, undisturbed: four reads, one after the other. */
  predicate DispatchAllowed(l: Ledger, signals: set<Signal>, id: string, scope: Scope, now: int) {
    MandateProblem(l, signals, id, now).None? && !Stopped(l, signals, scope)
  }

  /** Records what a readback says about an execution that ended BLOCKED or FAILED. */
  function RecordRecheck(l: Ledger, change: PreparedChange, id: string, status: Status, now: int): (Ledger, Answer)
    requires status == Applied || status == UnknownResult
  {
    var key := KeyOf(change);
    if key !in l.executions then (l, Refused("EXECUTION_NOT_FOUND"))
    else if l.executions[key].status !in {Blocked, Failed} then (l, Refused("EXECUTION_NOT_RECHECKABLE"))
    else if !ConsumedBy(l, key, id) then (l, Refused("MANDATE_RESERVATION_MISMATCH"))
    else
      (Marked(l, key, status).(rechecks := l.rechecks + [Recheck(key, id, l.executions[key].status, now)]), Moved)
  }

  function SetSwitch(l: Ledger, scope: string, on: bool): Ledger {
    l.(switches := l.switches[scope := on])
  }
}
