/** What the execution services answer, and exactly when a call writes. */
module ServiceAnswers {
  import opened Basics
  import opened Commands
  import opened ExecutionLedger
  import opened Recovery
  import opened ExecutionServices
  import opened ExecutionRuns
  import opened KillNames
  import opened ApprovalBinding
  import opened MandateCharges

  /**
   * The answer is what is recorded: an outcome or an unfinished status is the row's own status, ALREADY_PROCESSED is never
   * answered for a row that is blocked, failed or unknown, and BLOCKED only for a call that wrote nothing.
   */
  predicate Reports(a: Account, b: Account, change: PreparedChange, answer: Outcome) {
    var recorded := StatusOf(b.ledger, KeyOf(change));
    && (answer.status in {Applied, NoChange, Failed, UnknownResult, Reserved, InFlight} ==> recorded == Some(answer.status))
    && (answer.status == AlreadyProcessed ==> recorded.Some? && recorded.value !in {Blocked, Failed, UnknownResult} && b == a)
    && (answer.status == Blocked ==> b.writes == a.writes && b.value == a.value)
  }

  /** A call writes once or not at all; when it writes, the readback decides the answer. */
  predicate WritesOnce(a: Account, b: Account, change: PreparedChange, timesOut: bool, answer: Outcome) {
    if b.writes == a.writes then b.value == a.value
    else
      && b.writes == a.writes + 1 && a.value == change.source && change.source != change.target
      && b.value == (if timesOut then change.source else change.target)
      && answer == Outcome(if timesOut then Failed else Applied, "")
  }

  /** After the call the readback is recorded and answered while the row is active or says so already; otherwise the late answer is given. */
  lemma SettledWhen(a: Account, change: PreparedChange, refused: Outcome)
    ensures var r, key := Settled(a, change, refused), KeyOf(change);
            var held := if a.value == change.target then Applied else if a.value == change.source then Failed else UnknownResult;
            if key in a.ledger.executions && a.ledger.executions[key].status in {Reserved, InFlight} then
              r == (a.(ledger := Marked(a.ledger, key, held)), Outcome(held, ""))
            else r == (a, if StatusOf(a.ledger, key) == Some(held) then Outcome(held, "") else refused)
  {
    hide KeyOf;
  }

  // ---------- the approval path ----------

  /** What a call of the approval path needs to write. */
  predicate ApprovalMayWrite(a: Account, signals: set<Signal>, gates: Gates, change: PreparedChange, id: string, now: int) {
    && gates.policy && gates.boundary && a.value == change.source && change.source != change.target
    && KeyOf(change) !in a.ledger.executions && AllSettled(a.ledger)
    && !AnyRowOn(a.ledger.switches, change.scope) && !AnySignalOn(signals, change.scope)
    && ApprovedFor(a.ledger, id, change, now)
  }

  lemma QuietReports(a: Account, change: PreparedChange, id: string, now: int)
    ensures var r := ApproveQuiet(a, change, id, now);
            Reports(a, r.0, change, r.1) && r.0.writes == a.writes && r.0.value == a.value
  {
    ReservesWhen(a.ledger, change);
    BeginsWhen(ReserveExecution(a.ledger, change).0, change, id, now);
    hide AllSettled, KeyOf, ApprovedFor, AnyUnknown, AnyActive, Applicable;
  }

  lemma SendReports(
    a: Account, signals: set<Signal>, gates: Gates, timesOut: bool, change: PreparedChange, id: string, now: int)
    requires a.value == change.source && change.source != change.target && gates.policy
    ensures var r := ApproveSend(a, signals, gates, timesOut, change, id, now);
            && Reports(a, r.0, change, r.1) && WritesOnce(a, r.0, change, timesOut, r.1)
            && (r.0.writes == a.writes + 1 <==> ApprovalMayWrite(a, signals, gates, change, id, now))
  {
    SendsWhen(a.ledger, signals, change, id, now);
    var sent := SendOnce(a.ledger, signals, change, id, now).0;
    ConsumesWhen(sent, change, id, now);
    SignalsOnWhen(signals, change.scope);
    hide AllSettled, KeyOf, AnyRowOn, AnySignalOn, SendOnce, ConsumeRows, Signalled;
  }

  /**
   * A call of the approval path answers what is recorded, and it writes if and only if the gates are open, the account is at the
   * source, the execution is new, every other one is settled, no kill switch is on and the approval is for this change and free.
   */
  lemma ApproveAnswers(
    a: Account, signals: set<Signal>, gates: Gates, timesOut: bool, change: PreparedChange, id: string, now: int)
    ensures var r, recorded := ApproveRun(a, signals, gates, timesOut, change, id, now), StatusOf(a.ledger, KeyOf(change));
            && Reports(a, r.0, change, r.1) && WritesOnce(a, r.0, change, timesOut, r.1)
            && (recorded == Some(Applied) || recorded == Some(NoChange) ==> r == (a, Outcome(AlreadyProcessed, "")))
            && (r.0.writes == a.writes + 1 <==> ApprovalMayWrite(a, signals, gates, change, id, now))
  {
    hide ApproveSend, ApproveQuiet, KeyOf, AllSettled, AnyRowOn, AnySignalOn, ApprovedFor;
    QuietReports(a, change, id, now);
    if a.value == change.source && change.source != change.target && gates.policy {
      SendReports(a, signals, gates, timesOut, change, id, now);
    }
  }

  // ---------- the mandate path ----------

  /** The execution is reserved already for this mandate, or can be reserved now. */
  predicate Reservable(l: Ledger, change: PreparedChange, id: string, exposure: int, step: int, now: int)
    requires id in l.mandates
  {
    var key := KeyOf(change);
    || (key in l.executions && l.executions[key].status == Reserved && HasCharge(l, key, id))
    || (key !in l.executions && AllSettled(l) && Chargeable(change) && WithinQuotas(l, id, change, exposure, step, now))
  }

  predicate MandateMayWrite(
    a: Account, signals: set<Signal>, gates: Gates, change: PreparedChange, id: string, exposure: int, step: int, now: int)
  {
    && gates.policy && gates.boundary && a.value == change.source && change.source != change.target && Priced(change)
    && InForce(a.ledger, signals, id, now) && Covers(a.ledger.mandates[id].terms, change)
    && !AnyRowOn(a.ledger.switches, change.scope) && !AnySignalOn(signals, change.scope)
    && Reservable(a.ledger, change, id, exposure, step, now)
  }

  lemma BlockedReports(a: Account, change: PreparedChange, reason: string)
    ensures var r := BlockedOut(a, change, reason);
            Reports(a, r.0, change, r.1) && r.0.writes == a.writes && r.0.value == a.value
  {
    hide KeyOf;
  }

  lemma DispatchReports(
    a: Account, signals: set<Signal>, gates: Gates, timesOut: bool, change: PreparedChange, id: string, now: int)
    requires a.value == change.source && change.source != change.target && gates.policy
    ensures var r := MandateDispatch(a, signals, gates, timesOut, change, id, now);
            var key := KeyOf(change);
            && (r.1.status in {Applied, NoChange, Failed, UnknownResult, Reserved, InFlight} ==>
                  StatusOf(r.0.ledger, key) == Some(r.1.status))
            && (r.1.status == AlreadyProcessed ==>
                  key in a.ledger.executions && a.ledger.executions[key].status !in {Blocked, Failed, UnknownResult, Reserved, InFlight}
                  && r.0 == a)
            && (r.1.status == Blocked ==> r.0.writes == a.writes && r.0.value == a.value)
            && WritesOnce(a, r.0, change, timesOut, r.1)
            && (r.0.writes == a.writes + 1 <==>
                  && gates.boundary && InForce(a.ledger, signals, id, now) && Covers(a.ledger.mandates[id].terms, change)
                  && key in a.ledger.executions && a.ledger.executions[key].status == Reserved && HasCharge(a.ledger, key, id)
                  && !AnyRowOn(a.ledger.switches, change.scope) && !AnySignalOn(signals, change.scope))
  {
    StartsUnderWhen(a.ledger, signals, change, id, now);
    var sent := MandateSend(a.ledger, signals, change, id, now);
    LastCheckPassesWhen(sent.0, signals, id, change.scope, now);
    StandingIs(a.ledger, signals, change, id, now);
    hide KeyOf, AnyRowOn, AnySignalOn, MandateSend, DispatchAllowed, HasCharge, Covers;
  }

  /** What the start answers when it finds the execution in another state. */
  lemma StandingIs(l: Ledger, signals: set<Signal>, change: PreparedChange, id: string, now: int)
    ensures var r, key := MandateSend(l, signals, change, id, now), KeyOf(change);
            r.1.Standing? ==>
              && key in l.executions && l.executions[key].status != Reserved
              && r.1.status == if l.executions[key].status in {Applied, NoChange} then AlreadyProcessed else l.executions[key].status
  {
    hide KeyOf, MandateProblem, BindingProblem, ConsumedBy, SwitchOn;
  }

  /** What the reservation answers when it does not reserve. */
  lemma ReserveStandingIs(l: Ledger, signals: set<Signal>, change: PreparedChange, id: string, now: int)
    ensures var r, key := MandateReserve(l, signals, change, id, now), KeyOf(change);
            && (r.1.Standing? && key in l.executions ==>
                  r.1.status == if l.executions[key].status in {Applied, NoChange} then AlreadyProcessed else l.executions[key].status)
            && (r.1.Standing? && key !in l.executions ==> r.1.status == Blocked)
            && (key in l.executions ==>
                  && !r.1.Moved?
                  && (r.1.Standing? <==> Priced(change) && InForce(l, signals, id, now) && Covers(l.mandates[id].terms, change)))
  {
    InForceWhen(l, signals, id, now);
    ChargeWhen(change, 0, 0);
    if id in l.mandates {
      CoversWhen(l.mandates[id].terms, change);
    }
    hide KeyOf, MandateProblem, BindingProblem, SwitchOn, QuotaProblem, Exposure, StepPercent, AnyUnknown, AnyActive, Covers, InForce,
         Priced, Chargeable, ChargedAs;
  }

  /**
   * A call of the mandate path answers what is recorded, and it writes if and only if the gates are open, the account is at the
   * source, the mandate is in force and covers the change, no kill switch is on, and the execution is reserved for this mandate
   * or can be reserved within its quotas.
   */
  lemma MandateAnswers(
    a: Account, signals: set<Signal>, gates: Gates, timesOut: bool, change: PreparedChange, id: string, exposure: int, step: int, now: int)
    requires Chargeable(change) ==> ChargedAs(change, exposure, step)
    ensures var r := MandateRun(a, signals, gates, timesOut, change, id, now);
            && Reports(a, r.0, change, r.1) && WritesOnce(a, r.0, change, timesOut, r.1)
            && (r.0.writes == a.writes + 1 <==> MandateMayWrite(a, signals, gates, change, id, exposure, step, now))
  {
    hide MandateDispatch, KeyOf, AllSettled, AnyRowOn, AnySignalOn, MandateReserve, HasCharge, Covers, WithinQuotas, ChargedAs,
         BlockedOut, Chargeable, Priced, InForce, Reservable;
    ReserveStandingIs(a.ledger, signals, change, id, now);
    var reserved := MandateReserve(a.ledger, signals, change, id, now);
    BlockedReports(a, change, "ACTION_POLICY_REJECTED");
    if reserved.1.Refused? {
      BlockedReports(a, change, reserved.1.reason);
    }
    ReservedOrNot(a.ledger, signals, change, id, exposure, step, now);
    if gates.policy && a.value == change.source && change.source != change.target {
      DispatchAfterReserve(a, signals, gates, timesOut, change, id, exposure, step, now);
    }
  }

  /** A reservation writes the reserved row and its charge, or nothing. */
  lemma ReservedOrNot(l: Ledger, signals: set<Signal>, change: PreparedChange, id: string, exposure: int, step: int, now: int)
    requires Chargeable(change) ==> ChargedAs(change, exposure, step)
    ensures var r, key := MandateReserve(l, signals, change, id, now), KeyOf(change);
            && (r.1.Moved? <==> Chargeable(change) && MayReserve(l, signals, change, id, exposure, step, now))
            && (!r.1.Moved? ==> r.0 == l)
            && (r.1.Moved? ==>
                  && r.0.mandates == l.mandates && r.0.switches == l.switches
                  && key in r.0.executions && r.0.executions[key].status == Reserved && HasCharge(r.0, key, id))
  {
    hide KeyOf, MandateReserve, ChargedAs, MayReserve, HasCharge;
    if Chargeable(change) {
      ReservesUnderWhen(l, signals, change, id, exposure, step, now);
      var r := MandateReserve(l, signals, change, id, now);
      if r.1.Moved? {
        ReservedIsCharged(l, r.0, KeyOf(change), id);
      }
    } else {
      NoChargeNoReservation(l, signals, change, id, now);
    }
  }

  /** The dispatch of a reserved execution, in terms of the database before the reservation. */
  lemma DispatchAfterReserve(
    a: Account, signals: set<Signal>, gates: Gates, timesOut: bool, change: PreparedChange, id: string, exposure: int, step: int, now: int)
    requires Chargeable(change) ==> ChargedAs(change, exposure, step)
    requires a.value == change.source && change.source != change.target && gates.policy
    ensures var reserved := MandateReserve(a.ledger, signals, change, id, now);
            var r := MandateDispatch(a.(ledger := reserved.0), signals, gates, timesOut, change, id, now);
            && (reserved.1.Moved? || reserved.1 == Standing(Reserved) ==>
                  && Reports(a, r.0, change, r.1) && WritesOnce(a, r.0, change, timesOut, r.1)
                  && (r.0.writes == a.writes + 1 <==> MandateMayWrite(a, signals, gates, change, id, exposure, step, now)))
            && (!(reserved.1.Moved? || reserved.1 == Standing(Reserved)) ==>
                  !MandateMayWrite(a, signals, gates, change, id, exposure, step, now))
  {
    hide MandateDispatch, KeyOf, AllSettled, AnyRowOn, AnySignalOn, MandateReserve, HasCharge, Covers, WithinQuotas, ChargedAs;
    ReserveStandingIs(a.ledger, signals, change, id, now);
    ReservedOrNot(a.ledger, signals, change, id, exposure, step, now);
    DispatchReports(a.(ledger := MandateReserve(a.ledger, signals, change, id, now).0), signals, gates, timesOut, change, id, now);
  }

  lemma ReservedIsCharged(l: Ledger, later: Ledger, key: ExecutionKey, id: string)
    requires |later.consumptions| == |l.consumptions| + 1
    requires Last(later.consumptions).key == key && Last(later.consumptions).mandate == id
    ensures HasCharge(later, key, id)
  {
    assert Last(later.consumptions) in later.consumptions;
  }

  // ---------- reconciling and rechecking ----------

  /** Reconciling closes an unfinished row with what the account holds, answers what is recorded, and never writes. */
  lemma ReconcileAnswers(a: Account, change: PreparedChange)
    ensures var r := ReconcileRun(a, change);
            var key := KeyOf(change);
            && Reports(a, r.0, change, r.1) && r.0.writes == a.writes && r.0.value == a.value
            && (key !in a.ledger.executions ==> r == (a, Outcome(Blocked, "EXECUTION_NOT_FOUND")))
            && (key in a.ledger.executions && a.ledger.executions[key].status in {Reserved, InFlight} ==>
                  r.1 == Outcome(if a.value == change.target then Applied else if a.value == change.source then Failed else UnknownResult, "")
                  && StatusOf(r.0.ledger, key) == Some(r.1.status))
            && (key in a.ledger.executions && a.ledger.executions[key].status !in {Reserved, InFlight} ==>
                  && r.0 == a
                  && r.1.status == if a.ledger.executions[key].status in {Applied, NoChange} then AlreadyProcessed
                                   else a.ledger.executions[key].status)
  {
    hide KeyOf;
  }

  /**
   * Rechecking changes a BLOCKED or FAILED row only when the account left its source, to what the account holds, and answers the
   * row's status; any other row is refused, and closed when it was active. It never writes.
   */
  lemma RecheckAnswers(a: Account, change: PreparedChange, id: string, now: int)
    ensures var r := RecheckRun(a, change, id, now);
            var key := KeyOf(change);
            var held := if a.value == change.target then Applied else if a.value == change.source then Failed else UnknownResult;
            && Reports(a, r.0, change, r.1) && r.0.writes == a.writes && r.0.value == a.value
            && (key in a.ledger.executions && a.ledger.executions[key].status in {Blocked, Failed} ==>
                  if held == Failed then r.0 == a && r.1.status == a.ledger.executions[key].status
                  else if HasCharge(a.ledger, key, id) then r.1.status == held && StatusOf(r.0.ledger, key) == Some(held)
                  else r.0 == a && r.1.status == Blocked)
            && (!(key in a.ledger.executions && a.ledger.executions[key].status in {Blocked, Failed}) ==>
                  && r.1 == Outcome(Blocked, if key in a.ledger.executions then "EXECUTION_NOT_RECHECKABLE" else "EXECUTION_NOT_FOUND")
                  && r.0.ledger == if key in a.ledger.executions && a.ledger.executions[key].status in {Reserved, InFlight}
                                   then Marked(a.ledger, key, Blocked) else a.ledger)
            && (key in a.ledger.executions && held == Failed ==>
                  && (a.ledger.executions[key].status == Blocked ==> r.1 == Outcome(Blocked, "NEW_AUTHORIZED_EXECUTION_REQUIRED"))
                  && (a.ledger.executions[key].status == Failed ==> r.1 == Outcome(Failed, "RECHECK_SOURCE_STATE_CONFIRMED")))
  {
    if Classified(change, a.value) != Failed {
      RechecksWhen(a.ledger, change, id, Classified(change, a.value), now);
    }
    hide KeyOf, RecordRecheck, HasCharge;
  }

  // ---------- so the answers are true ----------

  /** What an answer says about the account. */
  predicate True(b: Account, change: PreparedChange, answer: Outcome) {
    && (answer.status in {Applied, NoChange} ==> b.value == change.target)
    && (answer.status == Failed ==> b.value == change.source && change.source != change.target)
    && (answer.status == UnknownResult ==> b.value != change.source && b.value != change.target)
  }

  /** On a truthful database the answer of either service is what the account holds, also when it repeats an older outcome. */
  lemma AnswersAreTrue(d: Desk, gates: Gates, timesOut: bool, change: PreparedChange, id: string, now: int, mandate: bool)
    requires DeskOk(d, change) && 0 !in d.w.executors
    ensures var a := Account(d.w.ledger, d.value, 0);
            var r := if mandate then MandateRun(a, d.w.signals, gates, timesOut, change, id, now)
                     else ApproveRun(a, d.w.signals, gates, timesOut, change, id, now);
            True(r.0, change, r.1)
  {
    hide MandateRun, ApproveRun, KeyOf, OneChange, InStep, MandateMayWrite, ApprovalMayWrite, WritesOnce, ChargedAs, Chargeable;
    var a := Account(d.w.ledger, d.value, 0);
    ServicesTellTheTruth(d, gates, timesOut, change, id, now, mandate);
    if mandate {
      ChargeWhen(change, 0, 0);
      var exposure := if Exposure(change).Ok? then Exposure(change).value else 0;
      var step := if StepPercent(change).Ok? then StepPercent(change).value else 0;
      ChargeWhen(change, exposure, step);
      MandateAnswers(a, d.w.signals, gates, timesOut, change, id, exposure, step, now);
    } else {
      ApproveAnswers(a, d.w.signals, gates, timesOut, change, id, now);
    }
  }

  lemma RecoveryAnswersAreTrue(d: Desk, change: PreparedChange)
    requires DeskOk(d, change) && 0 !in d.w.executors
    ensures var r := ReconcileRun(Account(d.w.ledger, d.value, 0), change); True(r.0, change, r.1)
  {
    ReconcileAnswers(Account(d.w.ledger, d.value, 0), change);
    hide ReconcileRun, KeyOf, OneChange, InStep;
  }
}
