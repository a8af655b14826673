/** The services are schedules of the recovery machine, so its truths hold after every call of a service. */
module ExecutionRuns {
  import opened Commands
  import opened ExecutionLedger
  import opened Dispatch
  import opened KillSwitch
  import opened Recovery
  import opened ExecutionServices

  lemma {:induction false} StepsThen(d: Desk, change: PreparedChange, events: seq<DeskEvent>, event: DeskEvent)
    ensures Steps(d, change, events + [event]) == Step(Steps(d, change, events), change, event)
    decreases |events|
  {
    hide Step;
    if events == [] {
      assert [event][1..] == [];
    } else {
      assert (events + [event])[1..] == events[1..] + [event];
      StepsThen(Step(d, change, events[0]), change, events[1..], event);
    }
  }

  /** The desk a service starts from: nobody at work, this change planned. */
  ghost predicate AtDesk(d: Desk, change: PreparedChange) {
    OneChange(d, change) && 0 !in d.w.executors
  }

  /** The desk shows the account the service left, and nobody is at work. */
  predicate Shows(d: Desk, a: Account) {
    d.w.ledger == a.ledger && d.value == a.value && 0 !in d.w.executors
  }

  /** The process stands at a position with this ledger and this value. */
  predicate Stands(d: Desk, l: Ledger, value: Value, position: Position) {
    d.w.ledger == l && d.value == value && 0 in d.w.executors && d.w.executors[0] == position
  }

  lemma {:induction false} NothingDone(d: Desk, change: PreparedChange)
    ensures Steps(d, change, []) == d
  {
    hide Step;
  }

  // ---------- the approval path ----------

  /** The process is at a position, and everything else of the desk is as given. */
  ghost predicate Reached(d: Desk, change: PreparedChange, l: Ledger, value: Value, signals: set<Signal>, position: Position) {
    && d.w.plans == map[change.proposal := change] && d.w.signals == signals
    && d.w.executors == map[0 := position] && d.w.ledger == l && d.value == value
  }

  lemma EmptyAtDesk(d: Desk, change: PreparedChange)
    requires AtDesk(d, change)
    ensures d.w.executors == map[]
  {
  }

  lemma StartQuietStep(d: Desk, change: PreparedChange)
    requires AtDesk(d, change) && d.value == change.target && ReserveExecution(d.w.ledger, change).1.Moved?
    ensures Reached(Step(d, change, Act(StartQuiet(0, change.proposal))), change, ReserveExecution(d.w.ledger, change).0, d.value,
                    d.w.signals, Quiet(change))
  {
    hide ReserveExecution, KeyOf, DoStart, DoConsume, DoHold, DoFinishHeld, DoStartHeld, DoReadCheck, DoCall, DoRefuse, DoRelease, DoBlock,
         DoClassify, Others, DoBeginQuiet, DoReleaseQuiet, DoFinishQuiet;
    EmptyAtDesk(d, change);
  }

  lemma BeginQuietStep(d: Desk, change: PreparedChange, l: Ledger, value: Value, signals: set<Signal>, id: string, now: int)
    requires Reached(d, change, l, value, signals, Quiet(change))
    ensures var begun := BeginExecution(l, change, id, now);
            var later := Step(d, change, Act(BeginQuiet(0, id, now)));
            if begun.1.Moved? then Reached(later, change, begun.0, value, signals, Begun(change, id))
            else later.w.ledger == l && later.value == value && 0 !in later.w.executors
  {
    hide BeginExecution, KeyOf, DoStart, DoConsume, DoHold, DoFinishHeld, DoStartHeld, DoReadCheck, DoCall, DoRefuse, DoRelease, DoBlock,
         DoClassify, Others, DoStartQuiet, DoReleaseQuiet, DoFinishQuiet;
  }

  lemma EndQuietSteps(d: Desk, change: PreparedChange, l: Ledger, value: Value, signals: set<Signal>, id: string)
    requires Reached(d, change, l, value, signals, Begun(change, id))
    ensures var released := ReleaseReservation(l, id, KeyOf(change));
            var later := Step(Step(d, change, Act(ReleaseQuiet(0))), change, Act(FinishQuiet(0)));
            later.w.ledger == Finish(released, KeyOf(change), NoChange).0 && later.value == value && 0 !in later.w.executors
  {
    hide KeyOf, ReleaseReservation, Finish, DoStart, DoConsume, DoHold, DoFinishHeld, DoStartHeld, DoReadCheck, DoCall, DoRefuse,
         DoRelease, DoBlock, DoClassify, Others, DoStartQuiet, DoBeginQuiet;
  }

  lemma QuietIsARun(d: Desk, change: PreparedChange, id: string, now: int) returns (events: seq<DeskEvent>)
    requires AtDesk(d, change) && d.value == change.target
    ensures Shows(Steps(d, change, events), ApproveQuiet(Account(d.w.ledger, d.value, 0), change, id, now).0)
  {
    hide Steps, Step, KeyOf, ReserveExecution, BeginExecution, ReleaseReservation, Finish, Reached;
    NothingDone(d, change);
    events := [];
    var reserved := ReserveExecution(d.w.ledger, change);
    if reserved.1.Moved? {
      StartQuietStep(d, change);
      StepsThen(d, change, events, Act(StartQuiet(0, change.proposal)));
      events := events + [Act(StartQuiet(0, change.proposal))];
      BeginQuietStep(Steps(d, change, events), change, reserved.0, d.value, d.w.signals, id, now);
      StepsThen(d, change, events, Act(BeginQuiet(0, id, now)));
      events := events + [Act(BeginQuiet(0, id, now))];
      var begun := BeginExecution(reserved.0, change, id, now);
      if begun.1.Moved? {
        EndQuietSteps(Steps(d, change, events), change, begun.0, d.value, d.w.signals, id);
        StepsThen(d, change, events, Act(ReleaseQuiet(0)));
        events := events + [Act(ReleaseQuiet(0))];
        StepsThen(d, change, events, Act(FinishQuiet(0)));
        events := events + [Act(FinishQuiet(0))];
      }
    }
  }

  lemma StartStep(d: Desk, change: PreparedChange, id: string, now: int)
    requires AtDesk(d, change) && d.value == change.source && d.value != change.target
    requires SendOnce(d.w.ledger, d.w.signals, change, id, now).1.Moved?
    ensures Reached(Step(d, change, Act(Start(0, change.proposal, id, now))), change,
                    SendOnce(d.w.ledger, d.w.signals, change, id, now).0, d.value, d.w.signals, Cleared(change, ByApproval(id)))
  {
    hide SendOnce, KeyOf, DoConsume, DoHold, DoFinishHeld, DoStartHeld, DoReadCheck, DoCall, DoRefuse, DoRelease, DoBlock,
         DoClassify, Others, DoStartQuiet, DoBeginQuiet, DoReleaseQuiet, DoFinishQuiet;
    EmptyAtDesk(d, change);
  }

  lemma RefuseStep(d: Desk, change: PreparedChange, l: Ledger, value: Value, signals: set<Signal>, path: Path)
    requires Reached(d, change, l, value, signals, Cleared(change, path))
    ensures Reached(Step(d, change, Act(Refuse(0))), change, l, value, signals,
                    if path.ByApproval? then Releasing(change, path.approval) else Blocking(change))
  {
    hide KeyOf, DoStart, DoConsume, DoHold, DoFinishHeld, DoStartHeld, DoReadCheck, DoCall, DoRelease, DoBlock,
         DoClassify, Others, DoStartQuiet, DoBeginQuiet, DoReleaseQuiet, DoFinishQuiet;
  }

  /** One read of the last check. */
  lemma ReadStep(d: Desk, change: PreparedChange, l: Ledger, value: Value, signals: set<Signal>, position: Position, now: int)
    requires Reached(d, change, l, value, signals, position) && ReadsMade(position).Some? && position.change == change
    ensures var made := ReadsMade(position).value;
            Reached(Step(d, change, Act(ReadCheck(0, now))), change, l, value, signals,
                    if ReadPasses(d.w, change, position.path, made, now) then AfterRead(change, position.path, made)
                    else TurnedBack(change, position.path))
  {
    hide KeyOf, ReadPasses, DoStart, DoConsume, DoHold, DoFinishHeld, DoStartHeld, DoCall, DoRefuse, DoRelease, DoBlock,
         DoClassify, Others, DoStartQuiet, DoBeginQuiet, DoReleaseQuiet, DoFinishQuiet;
  }

  lemma ConsumeStep(d: Desk, change: PreparedChange, l: Ledger, value: Value, signals: set<Signal>, id: string, now: int)
    requires Reached(d, change, l, value, signals, Checked(change, ByApproval(id), 1))
    ensures var consumed := ConsumeRows(l, change, id, now);
            Reached(Step(d, change, Act(Consume(0, now))), change, if consumed.1.Moved? then consumed.0 else l, value, signals,
                    if consumed.1.Moved? then Armed(change, ByApproval(id)) else Releasing(change, id))
  {
    hide KeyOf, SwitchOn, DoStart, DoHold, DoFinishHeld, DoStartHeld, DoReadCheck, DoCall, DoRefuse, DoRelease, DoBlock,
         DoClassify, Others, DoStartQuiet, DoBeginQuiet, DoReleaseQuiet, DoFinishQuiet;
  }

  /** The approval path's last check, undisturbed: the read of the sidecar and the consuming transaction. */
  lemma ConsumeSteps(d: Desk, change: PreparedChange, l: Ledger, value: Value, signals: set<Signal>, id: string, now: int)
    returns (events: seq<DeskEvent>)
    requires Reached(d, change, l, value, signals, Cleared(change, ByApproval(id)))
    ensures var consumed := ConsumeReserved(l, signals, change, id, now);
            Reached(Steps(d, change, events), change, if consumed.1.Moved? then consumed.0 else l, value, signals,
                    if consumed.1.Moved? then Armed(change, ByApproval(id)) else Releasing(change, id))
  {
    hide Steps, Step, KeyOf, ConsumeRows, Signalled;
    NothingDone(d, change);
    ReadStep(d, change, l, value, signals, Cleared(change, ByApproval(id)), now);
    StepsThen(d, change, [], Act(ReadCheck(0, now)));
    events := [] + [Act(ReadCheck(0, now))];
    if !Signalled(signals, change.scope) {
      ConsumeStep(Steps(d, change, events), change, l, value, signals, id, now);
      StepsThen(d, change, events, Act(Consume(0, now)));
      events := events + [Act(Consume(0, now))];
    }
  }

  lemma WithdrawSteps(d: Desk, change: PreparedChange, l: Ledger, value: Value, signals: set<Signal>, id: string)
    requires Reached(d, change, l, value, signals, Releasing(change, id))
    ensures var released := ReleaseReservation(l, id, KeyOf(change));
            var later := Step(Step(d, change, Act(Release(0))), change, Act(Block(0)));
            later.w.ledger == Finish(released, KeyOf(change), Blocked).0 && later.value == value && 0 !in later.w.executors
  {
    hide KeyOf, ReleaseReservation, Finish, DoStart, DoConsume, DoHold, DoFinishHeld, DoStartHeld, DoReadCheck, DoCall, DoRefuse,
         DoClassify, Others, DoStartQuiet, DoBeginQuiet, DoReleaseQuiet, DoFinishQuiet;
  }

  lemma DeliverSteps(d: Desk, change: PreparedChange, l: Ledger, value: Value, signals: set<Signal>, path: Path, applied: bool)
    requires Reached(d, change, l, value, signals, Armed(change, path))
    ensures var now := Delivered(change, value, applied);
            var later := Step(Step(d, change, Deliver(applied)), change, DeskEvent.Settle);
            later.w.ledger == Finish(l, KeyOf(change), Classified(change, now)).0 && later.value == now && 0 !in later.w.executors
  {
    hide KeyOf, Finish, Delivered, Classified, DoStart, DoConsume, DoHold, DoFinishHeld, DoStartHeld, DoReadCheck, DoRefuse, DoRelease,
         DoBlock, Others, DoStartQuiet, DoBeginQuiet, DoReleaseQuiet, DoFinishQuiet;
  }

  lemma SendIsARun(d: Desk, gates: Gates, timesOut: bool, change: PreparedChange, id: string, now: int)
    returns (events: seq<DeskEvent>)
    requires AtDesk(d, change) && d.value == change.source && d.value != change.target
    ensures Shows(Steps(d, change, events),
                  ApproveSend(Account(d.w.ledger, d.value, 0), d.w.signals, gates, timesOut, change, id, now).0)
  {
    hide Steps, Step, KeyOf, SendOnce, ConsumeReserved, ReleaseReservation, Finish, Reached, Delivered, Classified;
    NothingDone(d, change);
    events := [];
    var l, value, signals := d.w.ledger, d.value, d.w.signals;
    var sent := SendOnce(l, signals, change, id, now);
    if sent.1.Moved? {
      StartStep(d, change, id, now);
      StepsThen(d, change, events, Act(Start(0, change.proposal, id, now)));
      events := events + [Act(Start(0, change.proposal, id, now))];
      var consumed := ConsumeReserved(sent.0, signals, change, id, now);
      var here0 := Steps(d, change, events);
      if gates.boundary {
        var check := ConsumeSteps(here0, change, sent.0, value, signals, id, now);
        StepsConcat(d, change, events, check);
        events := events + check;
      } else {
        RefuseStep(here0, change, sent.0, value, signals, ByApproval(id));
        StepsThen(d, change, events, Act(Refuse(0)));
        events := events + [Act(Refuse(0))];
      }
      var here := Steps(d, change, events);
      if gates.boundary && consumed.1.Moved? {
        DeliverSteps(here, change, consumed.0, value, signals, ByApproval(id), !timesOut);
        StepsThen(d, change, events, Deliver(!timesOut));
        events := events + [Deliver(!timesOut)];
        StepsThen(d, change, events, DeskEvent.Settle);
        events := events + [DeskEvent.Settle];
      } else {
        WithdrawSteps(here, change, sent.0, value, signals, id);
        StepsThen(d, change, events, Act(Release(0)));
        events := events + [Act(Release(0))];
        StepsThen(d, change, events, Act(Block(0)));
        events := events + [Act(Block(0))];
      }
    }
  }

  /** Every call of the approval service is a run of the recovery machine. */
  lemma ApproveIsARun(d: Desk, gates: Gates, timesOut: bool, change: PreparedChange, id: string, now: int)
    returns (events: seq<DeskEvent>)
    requires AtDesk(d, change)
    ensures Shows(Steps(d, change, events),
                  ApproveRun(Account(d.w.ledger, d.value, 0), d.w.signals, gates, timesOut, change, id, now).0)
  {
    hide Steps, KeyOf, ApproveQuiet, ApproveSend;
    NothingDone(d, change);
    events := [];
    if !IsCompleted(d.w.ledger, KeyOf(change)) && gates.policy {
      if d.value == change.target {
        events := QuietIsARun(d, change, id, now);
      } else if d.value == change.source {
        events := SendIsARun(d, gates, timesOut, change, id, now);
      }
    }
  }

  // ---------- the mandate path ----------

  lemma BlockStep(d: Desk, change: PreparedChange, l: Ledger, value: Value, signals: set<Signal>)
    requires Reached(d, change, l, value, signals, Blocking(change))
    ensures var later := Step(d, change, Act(Block(0)));
            later.w.ledger == Finish(l, KeyOf(change), Blocked).0 && later.value == value && 0 !in later.w.executors
  {
    hide KeyOf, Finish, DoStart, DoConsume, DoHold, DoFinishHeld, DoStartHeld, DoReadCheck, DoCall, DoRefuse, DoReject, DoRelease,
         DoClassify, Others, DoStartQuiet, DoBeginQuiet, DoReleaseQuiet, DoFinishQuiet;
  }

  lemma RejectStep(d: Desk, change: PreparedChange)
    requires AtDesk(d, change)
    ensures Reached(Step(d, change, Act(Reject(0, change.proposal))), change, d.w.ledger, d.value, d.w.signals, Blocking(change))
  {
    hide KeyOf, DoStart, DoConsume, DoHold, DoFinishHeld, DoStartHeld, DoReadCheck, DoCall, DoRefuse, DoRelease, DoBlock,
         DoClassify, Others, DoStartQuiet, DoBeginQuiet, DoReleaseQuiet, DoFinishQuiet;
    EmptyAtDesk(d, change);
  }

  lemma BlockedIsARun(d: Desk, change: PreparedChange, reason: string) returns (events: seq<DeskEvent>)
    requires AtDesk(d, change)
    ensures Shows(Steps(d, change, events), BlockedOut(Account(d.w.ledger, d.value, 0), change, reason).0)
  {
    hide Steps, Step, KeyOf, Finish, Reached;
    NothingDone(d, change);
    RejectStep(d, change);
    StepsThen(d, change, [], Act(Reject(0, change.proposal)));
    events := [] + [Act(Reject(0, change.proposal))];
    BlockStep(Steps(d, change, events), change, d.w.ledger, d.value, d.w.signals);
    StepsThen(d, change, events, Act(Block(0)));
    events := events + [Act(Block(0))];
  }

  lemma HoldStep(d: Desk, change: PreparedChange, id: string, now: int)
    requires AtDesk(d, change) && (d.value == change.source || d.value == change.target)
    requires var r := MandateReserve(d.w.ledger, d.w.signals, change, id, now); r.1.Moved? || r.1 == Standing(Reserved)
    ensures Reached(Step(d, change, Act(Hold(0, change.proposal, id, now))), change,
                    MandateReserve(d.w.ledger, d.w.signals, change, id, now).0, d.value, d.w.signals, Holding(change, id))
  {
    ReserveStandsStill(d.w.ledger, d.w.signals, change, id, now);
    hide MandateReserve, KeyOf, DoStart, DoConsume, DoFinishHeld, DoStartHeld, DoReadCheck, DoCall, DoRefuse, DoReject, DoRelease, DoBlock,
         DoClassify, Others, DoStartQuiet, DoBeginQuiet, DoReleaseQuiet, DoFinishQuiet;
    EmptyAtDesk(d, change);
  }

  lemma FinishHeldStep(d: Desk, change: PreparedChange, l: Ledger, value: Value, signals: set<Signal>, id: string)
    requires Reached(d, change, l, value, signals, Holding(change, id)) && value == change.target
    ensures var later := Step(d, change, Act(FinishHeld(0)));
            later.w.ledger == Finish(l, KeyOf(change), NoChange).0 && later.value == value && 0 !in later.w.executors
  {
    hide KeyOf, Finish, DoStart, DoConsume, DoHold, DoStartHeld, DoReadCheck, DoCall, DoRefuse, DoReject, DoRelease, DoBlock,
         DoClassify, Others, DoStartQuiet, DoBeginQuiet, DoReleaseQuiet, DoFinishQuiet;
  }

  lemma StartHeldStep(d: Desk, change: PreparedChange, l: Ledger, value: Value, signals: set<Signal>, id: string, now: int)
    requires Reached(d, change, l, value, signals, Holding(change, id)) && value != change.target
    ensures var sent := MandateSend(l, signals, change, id, now);
            var later := Step(d, change, Act(StartHeld(0, now)));
            if sent.1.Moved? then Reached(later, change, sent.0, value, signals, Cleared(change, ByMandate(id)))
            else if sent.1.Refused? then Reached(later, change, l, value, signals, Blocking(change))
            else if sent.1 == Standing(InFlight) then Reached(later, change, l, value, signals, Sent(change))
            else later.w.ledger == l && later.value == value && 0 !in later.w.executors
  {
    hide MandateSend, KeyOf, DoStart, DoConsume, DoHold, DoFinishHeld, DoReadCheck, DoCall, DoRefuse, DoReject, DoRelease, DoBlock,
         DoClassify, Others, DoStartQuiet, DoBeginQuiet, DoReleaseQuiet, DoFinishQuiet;
  }

  /** The mandate path's last check, undisturbed: the reads that are left, one after the other. */
  lemma {:induction false} ReadSteps(d: Desk, change: PreparedChange, l: Ledger, value: Value, signals: set<Signal>,
                                     position: Position, id: string, now: int) returns (events: seq<DeskEvent>)
    requires Reached(d, change, l, value, signals, position)
    requires position == Cleared(change, ByMandate(id))
             || (position.Checked? && position == Checked(change, ByMandate(id), position.made) && position.made <= 3)
    ensures Reached(Steps(d, change, events), change, l, value, signals,
                    if ReadsPass(d.w, change, id, ReadsMade(position).value, now) then Armed(change, ByMandate(id))
                    else Blocking(change))
    decreases 3 - ReadsMade(position).value
  {
    hide Steps, Step, KeyOf, SwitchOn, Signalled, MandateStands;
    NothingDone(d, change);
    ReadStep(d, change, l, value, signals, position, now);
    StepsThen(d, change, [], Act(ReadCheck(0, now)));
    events := [] + [Act(ReadCheck(0, now))];
    var made := ReadsMade(position).value;
    if ReadPasses(d.w, change, ByMandate(id), made, now) && made < 3 {
      var rest := ReadSteps(Steps(d, change, events), change, l, value, signals, AfterRead(change, ByMandate(id), made), id, now);
      StepsConcat(d, change, events, rest);
      events := events + rest;
    }
  }

  lemma ReachedWorld(d: Desk, change: PreparedChange, l: Ledger, value: Value, signals: set<Signal>, position: Position)
    requires Reached(d, change, l, value, signals, position)
    ensures d.w.ledger == l && d.w.signals == signals
  {
  }

  lemma AllReads(w: World, change: PreparedChange, id: string, now: int)
    ensures ReadsPass(w, change, id, 0, now) == DispatchAllowed(w.ledger, w.signals, id, change.scope, now)
  {
    hide SwitchOn, Signalled;
  }

  lemma SettleStep(d: Desk, change: PreparedChange, l: Ledger, value: Value, signals: set<Signal>)
    requires Reached(d, change, l, value, signals, Sent(change))
    ensures var later := Step(d, change, DeskEvent.Settle);
            later.w.ledger == Finish(l, KeyOf(change), Classified(change, value)).0 && later.value == value
            && 0 !in later.w.executors
  {
    hide KeyOf, Finish, Classified, DoStart, DoConsume, DoHold, DoFinishHeld, DoStartHeld, DoReadCheck, DoCall, DoRefuse, DoReject,
         DoRelease, DoBlock, Others, DoStartQuiet, DoBeginQuiet, DoReleaseQuiet, DoFinishQuiet;
  }

  /** From a held reservation: what the mandate service does until it returns. */
  lemma HeldIsARun(d: Desk, l: Ledger, signals: set<Signal>, gates: Gates, timesOut: bool, change: PreparedChange, id: string,
                   now: int)
    returns (events: seq<DeskEvent>)
    requires Reached(d, change, l, d.value, signals, Holding(change, id)) && d.value != change.target
    ensures Shows(Steps(d, change, events), MandateDispatch(Account(l, d.value, 0), signals, gates, timesOut, change, id, now).0)
  {
    hide Steps, Step, KeyOf, MandateSend, DispatchAllowed, Finish, Reached, Delivered, Classified;
    NothingDone(d, change);
    var value := d.value;
    var sent := MandateSend(l, signals, change, id, now);
    MandateSendStandsStill(l, signals, change, id, now);
    StartHeldStep(d, change, l, value, signals, id, now);
    StepsThen(d, change, [], Act(StartHeld(0, now)));
    events := [] + [Act(StartHeld(0, now))];
    var here := Steps(d, change, events);
    if sent.1.Refused? {
      BlockStep(here, change, l, value, signals);
      StepsThen(d, change, events, Act(Block(0)));
      events := events + [Act(Block(0))];
    } else if sent.1 == Standing(InFlight) {
      SettleStep(here, change, l, value, signals);
      StepsThen(d, change, events, DeskEvent.Settle);
      events := events + [DeskEvent.Settle];
    } else if sent.1.Moved? {
      if gates.boundary {
        var check := ReadSteps(here, change, sent.0, value, signals, Cleared(change, ByMandate(id)), id, now);
        ReachedWorld(here, change, sent.0, value, signals, Cleared(change, ByMandate(id)));
        AllReads(here.w, change, id, now);
        StepsConcat(d, change, events, check);
        events := events + check;
      } else {
        RefuseStep(here, change, sent.0, value, signals, ByMandate(id));
        StepsThen(d, change, events, Act(Refuse(0)));
        events := events + [Act(Refuse(0))];
      }
      var there := Steps(d, change, events);
      if gates.boundary && DispatchAllowed(sent.0, signals, id, change.scope, now) {
        DeliverSteps(there, change, sent.0, value, signals, ByMandate(id), !timesOut);
        StepsThen(d, change, events, Deliver(!timesOut));
        events := events + [Deliver(!timesOut)];
        StepsThen(d, change, events, DeskEvent.Settle);
        events := events + [DeskEvent.Settle];
      } else {
        BlockStep(there, change, sent.0, value, signals);
        StepsThen(d, change, events, Act(Block(0)));
        events := events + [Act(Block(0))];
      }
    }
  }

  lemma {:induction false} StepsConcat(d: Desk, change: PreparedChange, first: seq<DeskEvent>, second: seq<DeskEvent>)
    ensures Steps(d, change, first + second) == Steps(Steps(d, change, first), change, second)
    decreases |first|
  {
    hide Step;
    if first == [] {
      assert first + second == second;
    } else {
      assert (first + second)[1..] == first[1..] + second;
      StepsConcat(Step(d, change, first[0]), change, first[1..], second);
    }
  }

  /** Every call of the mandate service is a run of the recovery machine. */
  lemma MandateIsARun(d: Desk, gates: Gates, timesOut: bool, change: PreparedChange, id: string, now: int)
    returns (events: seq<DeskEvent>)
    requires AtDesk(d, change)
    ensures Shows(Steps(d, change, events),
                  MandateRun(Account(d.w.ledger, d.value, 0), d.w.signals, gates, timesOut, change, id, now).0)
  {
    hide Steps, Step, KeyOf, MandateReserve, MandateDispatch, Finish, Reached;
    NothingDone(d, change);
    events := [];
    var reserved := MandateReserve(d.w.ledger, d.w.signals, change, id, now);
    if !gates.policy {
      events := BlockedIsARun(d, change, "");
    } else if d.value == change.source || d.value == change.target {
      if reserved.1.Refused? {
        events := BlockedIsARun(d, change, "");
      } else if reserved.1.Moved? || reserved.1 == Standing(Reserved) {
        HoldStep(d, change, id, now);
        StepsThen(d, change, [], Act(Hold(0, change.proposal, id, now)));
        events := [] + [Act(Hold(0, change.proposal, id, now))];
        var held := Steps(d, change, events);
        ReachedValue(held, change, reserved.0, d.value, d.w.signals, Holding(change, id));
        if d.value == change.target {
          FinishHeldStep(held, change, reserved.0, d.value, d.w.signals, id);
          StepsThen(d, change, events, Act(FinishHeld(0)));
          events := events + [Act(FinishHeld(0))];
        } else {
          var rest := HeldIsARun(held, reserved.0, d.w.signals, gates, timesOut, change, id, now);
          StepsConcat(d, change, events, rest);
          events := events + rest;
        }
      }
    }
  }

  lemma ReachedValue(d: Desk, change: PreparedChange, l: Ledger, value: Value, signals: set<Signal>, position: Position)
    requires Reached(d, change, l, value, signals, position)
    ensures d.value == value
  {
  }

  // ---------- so the services tell the truth ----------

  /** After any call of either service the recorded outcome is what the account holds. */
  lemma ServicesTellTheTruth(d: Desk, gates: Gates, timesOut: bool, change: PreparedChange, id: string, now: int, mandate: bool)
    requires DeskOk(d, change) && 0 !in d.w.executors
    ensures var a := Account(d.w.ledger, d.value, 0);
            var r := if mandate then MandateRun(a, d.w.signals, gates, timesOut, change, id, now).0
                     else ApproveRun(a, d.w.signals, gates, timesOut, change, id, now).0;
            Truthful(Desk(d.w.(ledger := r.ledger), r.value), change)
  {
    hide Steps, ApproveRun, MandateRun, KeyOf, InStep;
    var events: seq<DeskEvent>;
    if mandate {
      events := MandateIsARun(d, gates, timesOut, change, id, now);
    } else {
      events := ApproveIsARun(d, gates, timesOut, change, id, now);
    }
    OutcomesAreTrue(d, change, events);
  }
}
