/** The control database, the interrupt sidecar, and the two objects that run transactions over them. */
module ControlState {
  import opened Basics
  import opened Commands
  import opened ExecutionLedger

  /** The sidecar database of revoke and kill-switch signals. */
  class DurableInterruptState {
    var signals: set<Signal>

    constructor ()
      ensures signals == {}
    {
      signals := {};
    }

    method Engage(signal: Signal)
      modifies this
      ensures signals == old(signals) + {signal}
    {
      signals := signals + {signal};
    }

    method Release(signal: Signal)
      modifies this
      ensures signals == old(signals) - {signal}
    {
      signals := signals - {signal};
    }
  }

  class ControlDatabase {
    var executions: map<ExecutionKey, Execution>
    var approvals: map<string, Approval>
    var mandates: map<string, Mandate>
    var consumptions: seq<Consumption>
    var rechecks: seq<Recheck>
    var switches: map<string, bool>

    constructor ()
      ensures View() == EMPTY_LEDGER
    {
      executions, approvals, mandates, consumptions, rechecks, switches := map[], map[], map[], [], [], map[];
    }

    function View(): Ledger
      reads this
    {
      Ledger(executions, approvals, mandates, consumptions, rechecks, switches)
    }
  }

  class DurableControlState {
    const db: ControlDatabase
    const interrupts: DurableInterruptState

    constructor (db: ControlDatabase, interrupts: DurableInterruptState)
      ensures this.db == db && this.interrupts == interrupts
    {
      this.db, this.interrupts := db, interrupts;
    }

    /** Commits the reserved approval and the execution in flight together. */
    method SendOnceCommit(change: PreparedChange, id: string, now: int) returns (answer: Answer)
      modifies db`executions, db`approvals
      ensures (db.View(), answer) == SendOnce(old(db.View()), interrupts.signals, change, id, now)
    {
      var key := KeyOf(change);
      if AnyUnknown(db.View()) {
        return Refused("UNKNOWN_RESULT");
      }
      if key in db.executions {
        var status := db.executions[key].status;
        return Standing(if IsActive(status) || status in {Applied, NoChange} then AlreadyProcessed else status);
      }
      if AnyActive(db.View()) {
        return Standing(Blocked);
      }
      if Stopped(db.View(), interrupts.signals, change.scope) {
        return Refused("KILL_SWITCH_ACTIVE");
      }
      if !Applicable(db.View(), id, change, now) {
        return Refused("APPROVAL_NOT_APPLICABLE");
      }
      db.approvals := db.approvals[id := db.approvals[id].(reserved := Some(key))];
      db.executions := db.executions[key := Execution(change, InFlight)];
      answer := Moved;
    }

    /** The sidecar is read outside any transaction of the database. */
    method RequireNoInterrupt(scope: Scope) returns (open: bool)
      ensures open == !Signalled(interrupts.signals, scope)
    {
      open := forall s <- KillScopes(scope) :: KillSignal(s) !in interrupts.signals;
    }

    method ConsumeReservedApproval(change: PreparedChange, id: string, now: int) returns (answer: Answer)
      modifies db`approvals
      ensures (db.View(), answer) == ConsumeReserved(old(db.View()), interrupts.signals, change, id, now)
    {
      var open := RequireNoInterrupt(change.scope);
      if !open {
        return Refused("KILL_SWITCH_ACTIVE");
      }
      answer := ConsumeCommit(change, id, now);
    }

    /** The consuming transaction reads the rows only. */
    method ConsumeCommit(change: PreparedChange, id: string, now: int) returns (answer: Answer)
      modifies db`approvals
      ensures (db.View(), answer) == ConsumeRows(old(db.View()), change, id, now)
    {
      var key := KeyOf(change);
      if SwitchOn(db.switches, change.scope) {
        return Refused("KILL_SWITCH_ACTIVE");
      }
      if !Consumable(db.View(), id, key, now) {
        return Refused("APPROVAL_NOT_APPLICABLE");
      }
      db.approvals := db.approvals[id := db.approvals[id].(used := Some(key))];
      answer := Moved;
    }

    method ReleaseApprovalReservation(id: string, key: ExecutionKey)
      modifies db`approvals
      ensures db.View() == ReleaseReservation(old(db.View()), id, key)
    {
      if id in db.approvals && db.approvals[id].reserved == Some(key) && db.approvals[id].used.None? {
        db.approvals := db.approvals[id := db.approvals[id].(reserved := None)];
      }
    }

    method Reserve(change: PreparedChange) returns (answer: Answer)
      modifies db`executions
      ensures (db.View(), answer) == ReserveExecution(old(db.View()), change)
    {
      var key := KeyOf(change);
      if AnyUnknown(db.View()) {
        return Refused("UNKNOWN_RESULT");
      }
      if key in db.executions {
        var status := db.executions[key].status;
        return Standing(if status in {Applied, NoChange} then AlreadyProcessed else status);
      }
      if AnyActive(db.View()) {
        return Standing(Blocked);
      }
      db.executions := db.executions[key := Execution(change, Reserved)];
      answer := Moved;
    }

    method Begin(change: PreparedChange, id: string, now: int) returns (answer: Answer)
      modifies db`executions, db`approvals
      ensures (db.View(), answer) == BeginExecution(old(db.View()), change, id, now)
    {
      var key := KeyOf(change);
      if !Applicable(db.View(), id, change, now) {
        return Refused("APPROVAL_NOT_APPLICABLE");
      }
      if !(key in db.executions && db.executions[key].status == Reserved) {
        return Refused("EXECUTION_CONFLICT");
      }
      db.approvals := db.approvals[id := db.approvals[id].(reserved := Some(key))];
      db.executions := db.executions[key := db.executions[key].(status := InFlight)];
      answer := Moved;
    }

    method FinishExecution(key: ExecutionKey, status: Status) returns (answer: Answer)
      requires IsFinal(status)
      modifies db`executions
      ensures (db.View(), answer) == Finish(old(db.View()), key, status)
    {
      if key in db.executions && IsActive(db.executions[key].status) {
        db.executions := db.executions[key := db.executions[key].(status := status)];
        return Moved;
      }
      if key in db.executions && db.executions[key].status == status {
        return Standing(status);
      }
      answer := Refused("ILLEGAL_EXECUTION_TRANSITION");
    }

    method GrantApproval(id: string, change: PreparedChange, approver: string, reason: string, expires: int, now: int)
      returns (result: Result<()>)
      modifies db`approvals
      ensures (db.View(), result) == Grant(old(db.View()), id, change, approver, reason, expires, now)
    {
      if approver != APPROVER {
        return Rejected("UNAUTHENTICATED_PRINCIPAL");
      }
      if IsBlank(reason) {
        return Rejected("INVALID_INPUT");
      }
      if expires <= now {
        return Rejected("APPROVAL_EXPIRED");
      }
      if id !in db.approvals {
        db.approvals := db.approvals[id := Approval(change, approver, expires, false, None, None)];
      }
      result := Ok(());
    }

    method Revoke(id: string, principal: string) returns (result: Result<()>)
      modifies db`approvals
      ensures (db.View(), result) == RevokeApproval(old(db.View()), id, principal)
    {
      if id !in db.approvals || db.approvals[id].approver != principal {
        return Rejected("APPROVAL_NOT_FOUND");
      }
      if db.approvals[id].used.Some? {
        return Rejected("APPROVAL_ALREADY_USED");
      }
      db.approvals := db.approvals[id := db.approvals[id].(revoked := true)];
      result := Ok(());
    }

    /** Engaging commits the sidecar signal first, so that a crash between the two commits leaves the switch on. */
    method EngageKillSwitch(scope: string)
      modifies db`switches, interrupts
      ensures interrupts.signals == old(interrupts.signals) + {KillSignal(scope)}
      ensures db.View() == SetSwitch(old(db.View()), scope, true)
    {
      interrupts.Engage(KillSignal(scope));
      db.switches := db.switches[scope := true];
    }

    /** Releasing clears the row first and the sidecar signal last. */
    method ReleaseKillSwitch(scope: string)
      modifies db`switches, interrupts
      ensures interrupts.signals == old(interrupts.signals) - {KillSignal(scope)}
      ensures db.View() == SetSwitch(old(db.View()), scope, false)
    {
      db.switches := db.switches[scope := false];
      interrupts.Release(KillSignal(scope));
    }
  }

  class DurableMandateAuthority {
    const db: ControlDatabase
    const interrupts: DurableInterruptState

    constructor (db: ControlDatabase, interrupts: DurableInterruptState)
      ensures this.db == db && this.interrupts == interrupts
    {
      this.db, this.interrupts := db, interrupts;
    }

    method IssueMandate(id: string, terms: MandateTerms) returns (result: Result<()>)
      modifies db`mandates
      ensures (db.View(), result) == Issue(old(db.View()), id, terms)
    {
      if !SoundTerms(terms) {
        return Rejected("MANDATE_LIMIT_WIDENED");
      }
      if id in db.mandates {
        return if db.mandates[id].terms == terms then Ok(()) else Rejected("IMMUTABLE_MANDATE_CONFLICT");
      }
      db.mandates := db.mandates[id := Mandate(terms, Issued)];
      result := Ok(());
    }

    method ActivateMandate(id: string, now: int) returns (result: Result<()>)
      modifies db`mandates
      ensures (db.View(), result) == Activate(old(db.View()), id, now)
    {
      if id !in db.mandates {
        return Rejected("MANDATE_NOT_FOUND");
      }
      var mandate := db.mandates[id];
      if mandate.status == Revoked {
        return Rejected("MANDATE_REACTIVATION_FORBIDDEN");
      }
      if mandate.status == Active {
        return Ok(());
      }
      if mandate.terms.expiry <= now {
        return Rejected("MANDATE_EXPIRED");
      }
      db.mandates := db.mandates[id := mandate.(status := Active)];
      result := Ok(());
    }

    /** The sidecar signal is committed first and stays even when the mandate is unknown. */
    method Revoke(id: string) returns (result: Result<()>)
      modifies db`mandates, interrupts
      ensures interrupts.signals == old(interrupts.signals) + {RevokedSignal(id)}
      ensures (db.View(), result) == RevokeMandate(old(db.View()), id)
    {
      interrupts.Engage(RevokedSignal(id));
      if id !in db.mandates {
        return Rejected("MANDATE_NOT_FOUND");
      }
      db.mandates := db.mandates[id := db.mandates[id].(status := Revoked)];
      result := Ok(());
    }

    /** One pass over the consumptions computes every quota the check compares. */
    method CheckQuota(id: string, change: PreparedChange, exposure: int, now: int) returns (problem: Option<string>)
      requires id in db.mandates
      ensures problem == QuotaProblem(db.View(), id, change, exposure, now)
    {
      hide DayOf, StepPercent;
      var terms := db.mandates[id].terms;
      var rows := db.consumptions;
      var target := change.scope.campaign;
      var total, recent, dailyMoney, dailySteps, observed := 0, 0, 0, 0, false;
      for i := 0 to |rows|
        invariant total == TotalExposure(rows[..i], id)
        invariant recent == CountWithin(rows[..i], id, now - DAY, None)
        invariant dailyMoney == DailyExposure(rows[..i], id, DayOf(now))
        invariant dailySteps == DailySteps(rows[..i], id, DayOf(now))
        invariant observed == Observed(rows[..i], target, now)
      {
        var row := rows[i];
        assert rows[..i + 1][..i] == rows[..i] && Last(rows[..i + 1]) == row;
        assert rows[..i + 1] == rows[..i] + [row];
        if row.mandate == id {
          total := total + row.exposure;
          if now - DAY < row.at {
            recent := recent + 1;
          }
          if DayOf(row.at) == DayOf(now) {
            dailyMoney, dailySteps := dailyMoney + row.exposure, dailySteps + row.step;
          }
        }
        observed := observed || (row.target == target && row.until > now);
      }
      assert rows[..|rows|] == rows;
      var step := StepPercent(change);
      problem := if total + exposure > terms.totalLimit then Some("MONETARY_CAP_REACHED")
                 else if recent >= terms.actionsPer24Hours then Some("ACTION_QUOTA_REACHED")
                 else if observed then Some("OBSERVATION_WINDOW_ACTIVE")
                 else if dailyMoney + exposure > terms.dailyLimit then Some("DAILY_MONETARY_LIMIT_REACHED")
                 else if step.Rejected? then Some(step.reason)
                 else if step.value > terms.maximumStep then Some("STEP_LIMIT_EXCEEDED")
                 else if dailySteps + step.value > terms.maximumDailyChange then Some("DAILY_CHANGE_LIMIT_EXCEEDED")
                 else None;
    }

    /** The execution row and its quota consumption are inserted together. */
    method Reserve(change: PreparedChange, id: string, now: int) returns (answer: Answer)
      modifies db`executions, db`consumptions
      ensures (db.View(), answer) == MandateReserve(old(db.View()), interrupts.signals, change, id, now)
    {
      hide QuotaProblem;
      var key := KeyOf(change);
      var exposure := Exposure(change);
      if exposure.Rejected? {
        return Refused(exposure.reason);
      }
      var problem := MandateProblem(db.View(), interrupts.signals, id, now);
      if problem.Some? {
        return Refused(problem.value);
      }
      var binding := BindingProblem(db.mandates[id].terms, change);
      if binding.Some? {
        return Refused(binding.value);
      }
      if key in db.executions {
        var status := db.executions[key].status;
        return Standing(if status in {Applied, NoChange} then AlreadyProcessed else status);
      }
      if AnyUnknown(db.View()) {
        return Refused("UNKNOWN_RESULT");
      }
      if AnyActive(db.View()) {
        return Standing(Blocked);
      }
      if SwitchOn(db.switches, change.scope) {
        return Refused("KILL_SWITCH_ACTIVE");
      }
      var quota := CheckQuota(id, change, exposure.value, now);
      if quota.Some? {
        return Refused(quota.value);
      }
      QuotaNeedsStep(db.View(), id, change, exposure.value, now);
      var until := now + db.mandates[id].terms.observation;
      db.executions := db.executions[key := Execution(change, Reserved)];
      db.consumptions := db.consumptions
        + [Consumption(key, id, change.scope.campaign, exposure.value, StepPercent(change).value, now, until)];
      answer := Moved;
    }

    method SendOnceCommit(change: PreparedChange, id: string, now: int) returns (answer: Answer)
      modifies db`executions
      ensures (db.View(), answer) == MandateSend(old(db.View()), interrupts.signals, change, id, now)
    {
      var key := KeyOf(change);
      var problem := MandateProblem(db.View(), interrupts.signals, id, now);
      if problem.Some? {
        return Refused(problem.value);
      }
      var binding := BindingProblem(db.mandates[id].terms, change);
      if binding.Some? {
        return Refused(binding.value);
      }
      if key !in db.executions {
        return Refused("EXECUTION_NOT_FOUND");
      }
      if db.executions[key].status != Reserved {
        var status := db.executions[key].status;
        return Standing(if status in {Applied, NoChange} then AlreadyProcessed else status);
      }
      if !ConsumedBy(db.View(), key, id) {
        return Refused("MANDATE_RESERVATION_MISMATCH");
      }
      if SwitchOn(db.switches, change.scope) {
        return Refused("KILL_SWITCH_ACTIVE");
      }
      db.executions := db.executions[key := db.executions[key].(status := InFlight)];
      answer := Moved;
    }

    method RecordRecheckResult(change: PreparedChange, id: string, status: Status, now: int) returns (answer: Answer)
      requires status == Applied || status == UnknownResult
      modifies db`executions, db`rechecks
      ensures (db.View(), answer) == RecordRecheck(old(db.View()), change, id, status, now)
    {
      var key := KeyOf(change);
      if key !in db.executions {
        return Refused("EXECUTION_NOT_FOUND");
      }
      if db.executions[key].status !in {Blocked, Failed} {
        return Refused("EXECUTION_NOT_RECHECKABLE");
      }
      if !ConsumedBy(db.View(), key, id) {
        return Refused("MANDATE_RESERVATION_MISMATCH");
      }
      db.rechecks := db.rechecks + [Recheck(key, id, db.executions[key].status, now)];
      db.executions := db.executions[key := db.executions[key].(status := status)];
      answer := Moved;
    }
  }

  lemma QuotaNeedsStep(l: Ledger, id: string, change: PreparedChange, exposure: int, now: int)
    requires id in l.mandates && QuotaProblem(l, id, change, exposure, now).None?
    ensures StepPercent(change).Ok?
  {
  }
}
