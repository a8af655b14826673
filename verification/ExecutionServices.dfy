/** The services that carry a change along the approval path and the mandate path, over the database and the fake adapter. */
module ExecutionServices {
  import opened Commands
  import opened ExecutionLedger
  import opened ControlState
  import opened Recovery

  /** The in-memory adapter: one value per target, counted writes, and an injected timeout that loses the write. */
  class FakeWriteAdapter {
    const timesOut: bool
    var values: map<TargetKey, Value>
    var writeCalls: nat

    constructor (values: map<TargetKey, Value>, timesOut: bool)
      ensures this.values == values && this.timesOut == timesOut && writeCalls == 0
    {
      this.values, this.timesOut, writeCalls := values, timesOut, 0;
    }

    function Readback(target: TargetKey): Value
      reads this
    {
      if target in values then values[target] else Absent
    }

    /** Counts the call first; a timeout is raised before the value is stored. */
    method Apply(target: TargetKey, value: Value) returns (answered: bool)
      modifies this
      ensures writeCalls == old(writeCalls) + 1 && answered == !timesOut
      ensures values == if timesOut then old(values) else old(values)[target := value]
    {
      writeCalls := writeCalls + 1;
      if !timesOut {
        values := values[target := value];
      }
      answered := !timesOut;
    }
  }

  /** Database, the account's value at the change's target, and the number of transport calls. */
  datatype Account = Account(ledger: Ledger, value: Value, writes: nat)

  /** The checks whose contents are not modelled: policy and egress before anything else, and the gates before transport. */
  datatype Gates = Gates(policy: bool, boundary: bool)

  datatype Outcome = Outcome(status: Status, reason: string)

  function Finished(a: Account, change: PreparedChange, status: Status): Account
    requires IsFinal(status)
  {
    a.(ledger := Finish(a.ledger, KeyOf(change), status).0)
  }

  /** Readback and recorded classification after the transport call; `refused` answers when the row was closed meanwhile. */
  function Settled(a: Account, change: PreparedChange, refused: Outcome): (Account, Outcome) {
    var status := Classified(change, a.value);
    (Finished(a, change, status), if Finish(a.ledger, KeyOf(change), status).1.Refused? then refused else Outcome(status, ""))
  }

  const APPROVAL_LATE := Outcome(Blocked, "ILLEGAL_EXECUTION_TRANSITION")
  const MANDATE_LATE := Outcome(UnknownResult, "CONTROL_STATE_UNAVAILABLE")

  function Sending(a: Account, change: PreparedChange, timesOut: bool): Account {
    a.(value := Delivered(change, a.value, !timesOut), writes := a.writes + 1)
  }

  // ---------- the approval path ----------

  /** The value is at its target already: reserve, begin, release and record NO_CHANGE. */
  function ApproveQuiet(a: Account, change: PreparedChange, id: string, now: int): (Account, Outcome) {
    var reserved := ReserveExecution(a.ledger, change);
    if reserved.1.Refused? then (a, Outcome(Blocked, reserved.1.reason))
    else if reserved.1.Standing? then (a, Outcome(reserved.1.status, ""))
    else
      var begun := BeginExecution(reserved.0, change, id, now);
      if !begun.1.Moved? then (a.(ledger := reserved.0), Outcome(Blocked, "APPROVAL_NOT_APPLICABLE"))
      else
        var released := ReleaseReservation(begun.0, id, KeyOf(change));
        (Finished(a.(ledger := released), change, NoChange), Outcome(NoChange, ""))
  }

  /** A refusal after the commit gives the approval back and closes the execution. */
  function Withdrawn(a: Account, change: PreparedChange, id: string, reason: string): (Account, Outcome) {
    (Finished(a.(ledger := ReleaseReservation(a.ledger, id, KeyOf(change))), change, Blocked), Outcome(Blocked, reason))
  }

  function ApproveSend(a: Account, signals: set<Signal>, gates: Gates, timesOut: bool, change: PreparedChange, id: string, now: int)
    : (Account, Outcome)
  {
    var sent := SendOnce(a.ledger, signals, change, id, now);
    if sent.1.Refused? then (a, Outcome(Blocked, sent.1.reason))
    else if sent.1.Standing? then (a, Outcome(sent.1.status, ""))
    else
      var cleared := a.(ledger := sent.0);
      if !gates.boundary then Withdrawn(cleared, change, id, "DISPATCH_GATE_REFUSED")
      else
        var consumed := ConsumeReserved(cleared.ledger, signals, change, id, now);
        if !consumed.1.Moved? then Withdrawn(cleared, change, id, "APPROVAL_NOT_APPLICABLE")
        else Settled(Sending(cleared.(ledger := consumed.0), change, timesOut), change, APPROVAL_LATE)
  }

  function IsCompleted(l: Ledger, key: ExecutionKey): bool {
    key in l.executions && l.executions[key].status in {Applied, NoChange}
  }

  function ApproveRun(a: Account, signals: set<Signal>, gates: Gates, timesOut: bool, change: PreparedChange, id: string, now: int)
    : (Account, Outcome)
  {
    if IsCompleted(a.ledger, KeyOf(change)) then (a, Outcome(AlreadyProcessed, ""))
    else if !gates.policy then (a, Outcome(Blocked, "ACTION_POLICY_REJECTED"))
    else if a.value != change.source && a.value != change.target then (a, Outcome(Blocked, "CURRENT_STATE_MISMATCH"))
    else if a.value == change.target then ApproveQuiet(a, change, id, now)
    else ApproveSend(a, signals, gates, timesOut, change, id, now)
  }

  // ---------- the mandate path ----------

  /** Any refusal closes the request's own execution when it is still active. */
  function BlockedOut(a: Account, change: PreparedChange, reason: string): (Account, Outcome) {
    (Finished(a, change, Blocked), Outcome(Blocked, reason))
  }

  function MandateDispatch(a: Account, signals: set<Signal>, gates: Gates, timesOut: bool, change: PreparedChange, id: string, now: int)
    : (Account, Outcome)
  {
    var sent := MandateSend(a.ledger, signals, change, id, now);
    if sent.1.Refused? then BlockedOut(a, change, sent.1.reason)
    else if sent.1 == Standing(InFlight) then Settled(a, change, MANDATE_LATE)
    else if sent.1.Standing? then (a, Outcome(sent.1.status, ""))
    else
      var cleared := a.(ledger := sent.0);
      if !gates.boundary then BlockedOut(cleared, change, "DISPATCH_GATE_REFUSED")
      else if !DispatchAllowed(cleared.ledger, signals, id, change.scope, now) then BlockedOut(cleared, change, "MANDATE_REVOKED")
      else Settled(Sending(cleared, change, timesOut), change, MANDATE_LATE)
  }

  function MandateRun(a: Account, signals: set<Signal>, gates: Gates, timesOut: bool, change: PreparedChange, id: string, now: int)
    : (Account, Outcome)
  {
    if !gates.policy then BlockedOut(a, change, "ACTION_POLICY_REJECTED")
    else if a.value != change.source && a.value != change.target then (a, Outcome(Blocked, "CURRENT_STATE_MISMATCH"))
    else
      var reserved := MandateReserve(a.ledger, signals, change, id, now);
      if reserved.1.Refused? then BlockedOut(a, change, reserved.1.reason)
      else if reserved.1.Standing? && reserved.1.status != Reserved then (a, Outcome(reserved.1.status, ""))
      else
        var held := a.(ledger := reserved.0);
        if held.value == change.target then (Finished(held, change, NoChange), Outcome(NoChange, ""))
        else MandateDispatch(held, signals, gates, timesOut, change, id, now)
  }

  /** Resolves a RESERVED or IN_FLIGHT execution from a readback, without any write. */
  function ReconcileRun(a: Account, change: PreparedChange): (Account, Outcome) {
    var key := KeyOf(change);
    if key !in a.ledger.executions then (a, Outcome(Blocked, "EXECUTION_NOT_FOUND"))
    else
      var status := a.ledger.executions[key].status;
      if status in {Applied, NoChange} then (a, Outcome(AlreadyProcessed, ""))
      else if !IsActive(status) then (a, Outcome(status, ""))
      else Settled(a, change, APPROVAL_LATE)
  }

  /** A BLOCKED or FAILED execution is compared with the account again: no transport call, no new quota. */
  function RecheckRun(a: Account, change: PreparedChange, id: string, now: int): (Account, Outcome) {
    var key := KeyOf(change);
    if key !in a.ledger.executions then BlockedOut(a, change, "EXECUTION_NOT_FOUND")
    else if a.ledger.executions[key].status !in {Blocked, Failed} then BlockedOut(a, change, "EXECUTION_NOT_RECHECKABLE")
    else if Classified(change, a.value) == Failed then
      (a, Outcome(a.ledger.executions[key].status,
                  if a.ledger.executions[key].status == Blocked then "NEW_AUTHORIZED_EXECUTION_REQUIRED"
                  else "RECHECK_SOURCE_STATE_CONFIRMED"))
    else
      var status := Classified(change, a.value);
      var recorded := RecordRecheck(a.ledger, change, id, status, now);
      if recorded.1.Refused? then BlockedOut(a, change, recorded.1.reason)
      else (a.(ledger := recorded.0), Outcome(status, ""))
  }

  // ---------- the service objects ----------

  class ApprovalExecutionService {
    const state: DurableControlState
    const adapter: FakeWriteAdapter

    constructor (state: DurableControlState, adapter: FakeWriteAdapter)
      ensures this.state == state && this.adapter == adapter
    {
      this.state, this.adapter := state, adapter;
    }

    function View(change: PreparedChange): Account
      reads state.db, adapter
    {
      Account(state.db.View(), adapter.Readback(TargetOf(change)), adapter.writeCalls)
    }

    /** Executes an approved change once; every early return is one of the service's refusals. */
    method Execute(change: PreparedChange, id: string, gates: Gates, now: int) returns (outcome: Outcome)
      modifies state.db, adapter
      ensures (View(change), outcome)
           == ApproveRun(old(View(change)), state.interrupts.signals, gates, adapter.timesOut, change, id, now)
    {
      hide SendOnce, ConsumeReserved, ReserveExecution, BeginExecution, ReleaseReservation, Finish;
      var key, target := KeyOf(change), TargetOf(change);
      if IsCompleted(state.db.View(), key) {
        return Outcome(AlreadyProcessed, "");
      }
      if !gates.policy {
        return Outcome(Blocked, "ACTION_POLICY_REJECTED");
      }
      var before := adapter.Readback(target);
      if before != change.source && before != change.target {
        return Outcome(Blocked, "CURRENT_STATE_MISMATCH");
      }
      if before == change.target {
        outcome := RecordNoChange(change, id, now);
        return;
      }
      SendStandsStill(state.db.View(), state.interrupts.signals, change, id, now);
      var sent := state.SendOnceCommit(change, id, now);
      if sent.Refused? {
        return Outcome(Blocked, sent.reason);
      }
      if sent.Standing? {
        return Outcome(sent.status, "");
      }
      if !gates.boundary {
        outcome := Withdraw(change, id, "DISPATCH_GATE_REFUSED");
        return;
      }
      ConsumeStandsStill(state.db.View(), state.interrupts.signals, change, id, now);
      var consumed := state.ConsumeReservedApproval(change, id, now);
      if !consumed.Moved? {
        outcome := Withdraw(change, id, "APPROVAL_NOT_APPLICABLE");
        return;
      }
      var answered := adapter.Apply(target, change.target);
      outcome := Settle(change);
    }

    method RecordNoChange(change: PreparedChange, id: string, now: int) returns (outcome: Outcome)
      modifies state.db
      ensures (View(change), outcome) == ApproveQuiet(old(View(change)), change, id, now)
    {
      hide BeginExecution, ReleaseReservation, Finish;
      var reserved := state.Reserve(change);
      if reserved.Refused? {
        return Outcome(Blocked, reserved.reason);
      }
      if reserved.Standing? {
        return Outcome(reserved.status, "");
      }
      BeginStandsStill(state.db.View(), change, id, now);
      var begun := state.Begin(change, id, now);
      if !begun.Moved? {
        return Outcome(Blocked, "APPROVAL_NOT_APPLICABLE");
      }
      state.ReleaseApprovalReservation(id, KeyOf(change));
      var finished := state.FinishExecution(KeyOf(change), NoChange);
      outcome := Outcome(NoChange, "");
    }

    method Withdraw(change: PreparedChange, id: string, reason: string) returns (outcome: Outcome)
      modifies state.db
      ensures (View(change), outcome) == Withdrawn(old(View(change)), change, id, reason)
    {
      hide ReleaseReservation, Finish;
      state.ReleaseApprovalReservation(id, KeyOf(change));
      var finished := state.FinishExecution(KeyOf(change), Blocked);
      outcome := Outcome(Blocked, reason);
    }

    method Settle(change: PreparedChange) returns (outcome: Outcome)
      modifies state.db
      ensures (View(change), outcome) == Settled(old(View(change)), change, APPROVAL_LATE)
    {
      hide Finish;
      var status := Classified(change, adapter.Readback(TargetOf(change)));
      var finished := state.FinishExecution(KeyOf(change), status);
      outcome := if finished.Refused? then APPROVAL_LATE else Outcome(status, "");
    }

    /** Resolves an unfinished execution after a restart; the adapter is only read. */
    method Reconcile(change: PreparedChange) returns (outcome: Outcome)
      modifies state.db
      ensures (View(change), outcome) == ReconcileRun(old(View(change)), change)
    {
      hide Finish;
      var key := KeyOf(change);
      if key !in state.db.executions {
        return Outcome(Blocked, "EXECUTION_NOT_FOUND");
      }
      var status := state.db.executions[key].status;
      if status in {Applied, NoChange} {
        return Outcome(AlreadyProcessed, "");
      }
      if !IsActive(status) {
        return Outcome(status, "");
      }
      outcome := Settle(change);
    }
  }

  class BoundedAutonomyService {
    const authority: DurableMandateAuthority
    const state: DurableControlState
    const adapter: FakeWriteAdapter

    constructor (authority: DurableMandateAuthority, state: DurableControlState, adapter: FakeWriteAdapter)
      requires authority.db == state.db && authority.interrupts == state.interrupts
      ensures this.authority == authority && this.state == state && this.adapter == adapter && Valid()
    {
      this.authority, this.state, this.adapter := authority, state, adapter;
    }

    predicate Valid() {
      authority.db == state.db && authority.interrupts == state.interrupts
    }

    function View(change: PreparedChange): Account
      reads state.db, adapter
    {
      Account(state.db.View(), adapter.Readback(TargetOf(change)), adapter.writeCalls)
    }

    /** Executes a change under a mandate: reserve with quota, start, last check, transport, readback. */
    method Execute(change: PreparedChange, id: string, gates: Gates, now: int) returns (outcome: Outcome)
      requires Valid()
      modifies state.db, adapter
      ensures (View(change), outcome)
           == MandateRun(old(View(change)), state.interrupts.signals, gates, adapter.timesOut, change, id, now)
    {
      hide MandateReserve, MandateDispatch, Finish;
      if !gates.policy {
        outcome := BlockActive(change, "ACTION_POLICY_REJECTED");
        return;
      }
      var before := adapter.Readback(TargetOf(change));
      if before != change.source && before != change.target {
        return Outcome(Blocked, "CURRENT_STATE_MISMATCH");
      }
      ReserveStandsStill(state.db.View(), state.interrupts.signals, change, id, now);
      var reserved := authority.Reserve(change, id, now);
      if reserved.Refused? {
        outcome := BlockActive(change, reserved.reason);
        return;
      }
      if reserved.Standing? && reserved.status != Reserved {
        return Outcome(reserved.status, "");
      }
      if before == change.target {
        var finished := state.FinishExecution(KeyOf(change), NoChange);
        return Outcome(NoChange, "");
      }
      outcome := Dispatch(change, id, gates, now);
    }

    method Dispatch(change: PreparedChange, id: string, gates: Gates, now: int) returns (outcome: Outcome)
      requires Valid()
      modifies state.db, adapter
      ensures (View(change), outcome)
           == MandateDispatch(old(View(change)), state.interrupts.signals, gates, adapter.timesOut, change, id, now)
    {
      hide MandateSend, DispatchAllowed, Finish;
      MandateSendStandsStill(state.db.View(), state.interrupts.signals, change, id, now);
      var sent := authority.SendOnceCommit(change, id, now);
      if sent.Refused? {
        outcome := BlockActive(change, sent.reason);
        return;
      }
      if sent == Standing(InFlight) {
        outcome := Settle(change);
        return;
      }
      if sent.Standing? {
        return Outcome(sent.status, "");
      }
      if !gates.boundary {
        outcome := BlockActive(change, "DISPATCH_GATE_REFUSED");
        return;
      }
      if !DispatchAllowed(state.db.View(), state.interrupts.signals, id, change.scope, now) {
        outcome := BlockActive(change, "MANDATE_REVOKED");
        return;
      }
      var answered := adapter.Apply(TargetOf(change), change.target);
      outcome := Settle(change);
    }

    method BlockActive(change: PreparedChange, reason: string) returns (outcome: Outcome)
      modifies state.db
      ensures (View(change), outcome) == BlockedOut(old(View(change)), change, reason)
    {
      hide Finish;
      var finished := state.FinishExecution(KeyOf(change), Blocked);
      outcome := Outcome(Blocked, reason);
    }

    method Settle(change: PreparedChange) returns (outcome: Outcome)
      modifies state.db
      ensures (View(change), outcome) == Settled(old(View(change)), change, MANDATE_LATE)
    {
      hide Finish;
      var status := Classified(change, adapter.Readback(TargetOf(change)));
      var finished := state.FinishExecution(KeyOf(change), status);
      outcome := if finished.Refused? then MANDATE_LATE else Outcome(status, "");
    }

    method Recheck(change: PreparedChange, id: string, now: int) returns (outcome: Outcome)
      requires Valid()
      modifies state.db
      ensures (View(change), outcome) == RecheckRun(old(View(change)), change, id, now)
    {
      hide Finish, RecordRecheck;
      var key := KeyOf(change);
      if key !in state.db.executions {
        outcome := BlockActive(change, "EXECUTION_NOT_FOUND");
        return;
      }
      var previous := state.db.executions[key].status;
      if previous !in {Blocked, Failed} {
        outcome := BlockActive(change, "EXECUTION_NOT_RECHECKABLE");
        return;
      }
      var status := Classified(change, adapter.Readback(TargetOf(change)));
      if status == Failed {
        return Outcome(previous, if previous == Blocked then "NEW_AUTHORIZED_EXECUTION_REQUIRED" else "RECHECK_SOURCE_STATE_CONFIRMED");
      }
      RecheckStandsStill(state.db.View(), change, id, status, now);
      var recorded := authority.RecordRecheckResult(change, id, status, now);
      if recorded.Refused? {
        outcome := BlockActive(change, recorded.reason);
        return;
      }
      outcome := Outcome(status, "");
    }
  }

  lemma ReserveStandsStill(l: Ledger, signals: set<Signal>, change: PreparedChange, id: string, now: int)
    ensures !MandateReserve(l, signals, change, id, now).1.Moved? ==> MandateReserve(l, signals, change, id, now).0 == l
  {
    hide AnyUnknown, AnyActive, QuotaProblem, MandateProblem, BindingProblem, Exposure, SwitchOn;
  }

  lemma MandateSendStandsStill(l: Ledger, signals: set<Signal>, change: PreparedChange, id: string, now: int)
    ensures !MandateSend(l, signals, change, id, now).1.Moved? ==> MandateSend(l, signals, change, id, now).0 == l
  {
    hide MandateProblem, BindingProblem, SwitchOn, ConsumedBy;
  }

  lemma RecheckStandsStill(l: Ledger, change: PreparedChange, id: string, status: Status, now: int)
    requires status == Applied || status == UnknownResult
    ensures var r := RecordRecheck(l, change, id, status, now); (r.1.Refused? ==> r.0 == l) && !r.1.Standing?
  {
    hide ConsumedBy;
  }

  lemma SendStandsStill(l: Ledger, signals: set<Signal>, change: PreparedChange, id: string, now: int)
    ensures !SendOnce(l, signals, change, id, now).1.Moved? ==> SendOnce(l, signals, change, id, now).0 == l
  {
    hide AnyUnknown, AnyActive, Stopped, Applicable;
  }

  lemma ConsumeStandsStill(l: Ledger, signals: set<Signal>, change: PreparedChange, id: string, now: int)
    ensures !ConsumeReserved(l, signals, change, id, now).1.Moved? ==> ConsumeReserved(l, signals, change, id, now).0 == l
  {
    hide Stopped, Consumable;
  }

  lemma BeginStandsStill(l: Ledger, change: PreparedChange, id: string, now: int)
    ensures !BeginExecution(l, change, id, now).1.Moved? ==> BeginExecution(l, change, id, now).0 == l
  {
    hide Applicable;
  }
}
