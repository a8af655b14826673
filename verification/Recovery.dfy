/**
 * Recovery tells the truth: one process carries one change along either path, may crash between any two commits or around
 * the transport call, and reconciles from what the account holds.
 */
module Recovery {
  import opened Basics
  import opened Commands
  import opened ExecutionLedger
  import opened Dispatch
  import opened DispatchSafety

  /** The database, and the value the account holds at the change's target. */
  datatype Desk = Desk(w: World, value: Value)

  datatype DeskEvent =
    | Act(event: Event)
    | Deliver(applied: bool)
    | Settle
    | Restore
    | CheckAgain(mandate: string, now: int)

  /** The fake adapter's `apply`: the value is written, or the call times out without effect. */
  function Delivered(change: PreparedChange, value: Value, applied: bool): Value {
    if applied then change.target else value
  }

  /** How a readback classifies an execution. */
  function Classified(change: PreparedChange, observed: Value): (status: Status)
    ensures IsReadback(status) && IsFinal(status)
    ensures status == Applied <==> observed == change.target
    ensures status == Failed <==> observed == change.source && change.source != change.target
  {
    if observed == change.target then Applied else if observed == change.source then Failed else UnknownResult
  }

  /** What the process does itself, guarded by the value it read before: it writes only from the source value. */
  predicate Own(d: Desk, change: PreparedChange, event: Event) {
    match event
    case Start(ex, _, _, _) => ex == 0 && d.value == change.source && d.value != change.target
    case StartQuiet(ex, _) => ex == 0 && d.value == change.target
    case Hold(ex, _, _, _) => ex == 0 && (d.value == change.source || d.value == change.target)
    case FinishHeld(ex) => ex == 0 && d.value == change.target
    case StartHeld(ex, _) => ex == 0 && d.value != change.target
    case Consume(ex, _) => ex == 0
    case BeginQuiet(ex, _, _) => ex == 0
    case ReleaseQuiet(ex) => ex == 0
    case FinishQuiet(ex) => ex == 0
    case ReadCheck(ex, _) => ex == 0
    case Refuse(ex) => ex == 0
    case Reject(ex, _) => ex == 0
    case Release(ex) => ex == 0
    case Block(ex) => ex == 0
    case Crash(ex) => ex == 0
    case _ => false
  }

  predicate Operator(event: Event) {
    event.AddApproval? || event.DropApproval? || event.AddMandate? || event.StartMandate? || event.SignalRevocation?
    || event.RevokeRow? || event.SignalKill? || event.SwitchRow? || event.ClearKill?
  }

  function Step(d: Desk, change: PreparedChange, event: DeskEvent): Desk {
    match event
    case Act(own) => if Own(d, change, own) || Operator(own) then d.(w := Next(d.w, own)) else d
    case Deliver(applied) =>
      if 0 in d.w.executors && d.w.executors[0].Armed?
      then Desk(Next(d.w, Call(0)), Delivered(change, d.value, applied)) else d
    case Settle => d.(w := Next(d.w, Classify(0, Classified(change, d.value))))
    case Restore =>
      if 0 in d.w.executors then d else d.(w := Next(d.w, Reconcile(KeyOf(change), Classified(change, d.value))))
    case CheckAgain(mandate, now) =>
      if 0 in d.w.executors || Classified(change, d.value) == Failed then d
      else d.(w := Next(d.w, RecordReadback(change.proposal, mandate, Classified(change, d.value), now)))
  }

  function Steps(d: Desk, change: PreparedChange, events: seq<DeskEvent>): Desk
    decreases |events|
  {
    if events == [] then d else Steps(Step(d, change, events[0]), change, events[1..])
  }

  function StatusOf(l: Ledger, key: ExecutionKey): Option<Status> {
    if key in l.executions then Some(l.executions[key].status) else None
  }

  /** Only this change has a row, and only this process works on it. */
  ghost predicate OneChange(d: Desk, change: PreparedChange) {
    && d.w.plans == map[change.proposal := change]
    && (forall ex :: ex in d.w.executors ==> ex == 0 && d.w.executors[ex].change == change)
  }

  /** Where the process stands says what the row's status is. */
  predicate InStep(d: Desk, change: PreparedChange) {
    var status := StatusOf(d.w.ledger, KeyOf(change));
    0 in d.w.executors ==>
      match d.w.executors[0]
      case Holding(_, _) => status == Some(Reserved)
      case Cleared(_, _) => status == Some(InFlight)
      case Checked(_, _, _) => status == Some(InFlight)
      case Armed(_, _) => status == Some(InFlight)
      case Sent(_) => status == Some(InFlight)
      case Releasing(_, _) => status == Some(InFlight)
      case Blocking(_) => true
      case Quiet(_) => status == Some(Reserved) && d.value == change.target
      case Begun(_, _) => status == Some(InFlight) && d.value == change.target
      case Settling(_) => status == Some(InFlight) && d.value == change.target
  }

  /** A recorded outcome is what the account holds. */
  predicate Truthful(d: Desk, change: PreparedChange) {
    match StatusOf(d.w.ledger, KeyOf(change))
    case None => true
    case Some(status) =>
      && (status == Applied || status == NoChange ==> d.value == change.target)
      && (status == Failed ==> d.value == change.source && change.source != change.target)
      && (status == UnknownResult ==> d.value != change.source && d.value != change.target)
  }

  ghost predicate DeskOk(d: Desk, change: PreparedChange) {
    OneChange(d, change) && InStep(d, change) && Truthful(d, change)
  }

  // ---------- every event ----------

  lemma StartTrue(d: Desk, change: PreparedChange, event: Event)
    requires DeskOk(d, change) && Own(d, change, event) && (event.Start? || event.Consume? || event.ReadCheck? || event.Refuse?)
    ensures DeskOk(d.(w := Next(d.w, event)), change)
  {
    hide Stopped, Applicable, Consumable, DispatchAllowed, KeyOf, AnyUnknown, AnyActive, DoStartQuiet, DoBeginQuiet, DoReleaseQuiet, DoFinishQuiet, DoHold,
         DoFinishHeld, DoStartHeld, DoCall, DoRelease, DoBlock, DoClassify, Others;
  }

  lemma QuietTrue(d: Desk, change: PreparedChange, event: Event)
    requires DeskOk(d, change) && Own(d, change, event)
    requires event.StartQuiet? || event.BeginQuiet? || event.ReleaseQuiet? || event.FinishQuiet?
    ensures DeskOk(d.(w := Next(d.w, event)), change)
  {
    hide Applicable, KeyOf, AnyUnknown, AnyActive, DoStart, DoConsume, DoHold, DoReadCheck, DoRefuse,
         DoFinishHeld, DoStartHeld, DoCall, DoRelease, DoBlock, DoClassify, Others;
  }

  lemma HoldTrue(d: Desk, change: PreparedChange, event: Event)
    requires DeskOk(d, change) && Own(d, change, event) && (event.Hold? || event.FinishHeld? || event.StartHeld? || event.Reject?)
    ensures DeskOk(d.(w := Next(d.w, event)), change)
  {
    hide KeyOf, AnyUnknown, AnyActive, DoStart, DoConsume, DoReadCheck, DoRefuse, QuotaProblem, MandateProblem, BindingProblem,
         Exposure, StepPercent, SwitchOn, ConsumedBy,
         DoStartQuiet, DoBeginQuiet, DoReleaseQuiet, DoFinishQuiet, DoCall, DoRelease, DoBlock, DoClassify, Others;
  }

  lemma AwayTrue(d: Desk, change: PreparedChange, event: Event)
    requires DeskOk(d, change) && Own(d, change, event) && (event.Release? || event.Block? || event.Crash?)
    ensures DeskOk(d.(w := Next(d.w, event)), change)
  {
    hide KeyOf, DoStart, DoConsume, DoReadCheck, DoRefuse, DoHold, DoFinishHeld, DoStartHeld,
         DoStartQuiet, DoBeginQuiet, DoReleaseQuiet, DoFinishQuiet, DoCall, DoClassify, Others;
  }

  lemma OperatorTrue(d: Desk, change: PreparedChange, event: Event)
    requires DeskOk(d, change) && Operator(event)
    ensures DeskOk(d.(w := Next(d.w, event)), change)
  {
    OperatorFrame(d.w, event);
    hide Next;
  }

  lemma OperatorFrame(w: World, event: Event)
    requires Operator(event)
    ensures var later := Next(w, event);
            later.plans == w.plans && later.executors == w.executors && later.ledger.executions == w.ledger.executions
  {
    OthersKeepExecutors(w, event);
    QuietLog(w, event);
    OperatorRows(w, event);
    hide Next;
  }

  lemma OperatorRows(w: World, event: Event)
    requires Operator(event)
    ensures Next(w, event).ledger.executions == w.ledger.executions
  {
    hide DoStart, DoConsume, DoStartQuiet, DoBeginQuiet, DoReleaseQuiet, DoFinishQuiet, DoHold, DoFinishHeld, DoStartHeld, DoReadCheck,
         DoCall, DoRefuse, DoRelease, DoBlock, DoClassify, IsBlank, SoundTerms, Finish, RecordRecheck;
  }

  lemma CallTrue(d: Desk, change: PreparedChange, event: DeskEvent)
    requires DeskOk(d, change) && (event.Deliver? || event.Settle?)
    ensures DeskOk(Step(d, change, event), change)
  {
    hide KeyOf, DoStart, DoConsume, DoReadCheck, DoRefuse, DoHold, DoFinishHeld, DoStartHeld, DoRelease, DoBlock,
         DoStartQuiet, DoBeginQuiet, DoReleaseQuiet, DoFinishQuiet, Others;
  }

  lemma RestoreTrue(d: Desk, change: PreparedChange, event: DeskEvent)
    requires DeskOk(d, change) && (event.Restore? || event.CheckAgain?)
    ensures DeskOk(Step(d, change, event), change)
  {
    hide KeyOf, DoStart, DoConsume, DoReadCheck, DoRefuse, DoHold, DoFinishHeld, DoStartHeld, DoRelease, DoBlock,
         DoStartQuiet, DoBeginQuiet, DoReleaseQuiet, DoFinishQuiet, DoCall, DoClassify, ConsumedBy;
  }

  lemma StepTrue(d: Desk, change: PreparedChange, event: DeskEvent)
    requires DeskOk(d, change)
    ensures DeskOk(Step(d, change, event), change)
  {
    hide DeskOk, Next, Classified;
    match event
    case Act(own) =>
      if Operator(own) {
        OperatorTrue(d, change, own);
      } else if Own(d, change, own) {
        OwnTrue(d, change, own);
      }
    case Deliver(applied) => CallTrue(d, change, event);
    case Settle => CallTrue(d, change, event);
    case Restore => RestoreTrue(d, change, event);
    case CheckAgain(mandate, now) => RestoreTrue(d, change, event);
  }

  lemma OwnTrue(d: Desk, change: PreparedChange, event: Event)
    requires DeskOk(d, change) && Own(d, change, event)
    ensures DeskOk(d.(w := Next(d.w, event)), change)
  {
    hide DeskOk, Next;
    if event.Start? || event.Consume? || event.ReadCheck? || event.Refuse? {
      StartTrue(d, change, event);
    } else if event.Hold? || event.FinishHeld? || event.StartHeld? || event.Reject? {
      HoldTrue(d, change, event);
    } else if event.Release? || event.Block? || event.Crash? {
      AwayTrue(d, change, event);
    } else {
      QuietTrue(d, change, event);
    }
  }

  /** At every point of every run a recorded APPLIED, NO_CHANGE, FAILED or UNKNOWN_RESULT is what the account holds. */
  lemma {:induction false} OutcomesAreTrue(d: Desk, change: PreparedChange, events: seq<DeskEvent>)
    requires DeskOk(d, change)
    ensures DeskOk(Steps(d, change, events), change)
    decreases |events|
  {
    hide DeskOk, Step;
    if events != [] {
      StepTrue(d, change, events[0]);
      OutcomesAreTrue(Step(d, change, events[0]), change, events[1..]);
    }
  }

  // ---------- restart and reconcile ----------

  lemma CrashFrees(d: Desk, change: PreparedChange)
    requires OneChange(d, change)
    ensures var r := Step(d, change, Act(Crash(0)));
            && r.value == d.value && r.w.ledger == d.w.ledger && r.w.log == d.w.log && 0 !in r.w.executors
  {
    hide DoStart, DoConsume, DoStartQuiet, DoBeginQuiet, DoReleaseQuiet, DoFinishQuiet, DoHold, DoFinishHeld, DoStartHeld, DoReadCheck,
         DoCall, DoRefuse, DoRelease, DoBlock, DoClassify, Others;
  }

  lemma RestoreRecords(d: Desk, change: PreparedChange)
    requires 0 !in d.w.executors
    requires KeyOf(change) in d.w.ledger.executions && IsActive(d.w.ledger.executions[KeyOf(change)].status)
    ensures var r := Step(d, change, Restore);
            && r.value == d.value && r.w.log == d.w.log
            && StatusOf(r.w.ledger, KeyOf(change)) == Some(Classified(change, d.value))
  {
    hide DoStart, DoConsume, DoStartQuiet, DoBeginQuiet, DoReleaseQuiet, DoFinishQuiet, DoHold, DoFinishHeld, DoStartHeld, DoReadCheck,
         DoCall, DoRefuse, DoRelease, DoBlock, DoClassify, KeyOf, Classified;
  }

  /**
   * Whatever a run did before the process stopped, restarting and reconciling an unfinished execution writes nothing and
   * records APPLIED exactly when the account holds the target and FAILED exactly when it holds the source.
   */
  lemma {:induction false} RecoveryTellsTheTruth(d: Desk, change: PreparedChange, events: seq<DeskEvent>, minimum: int, maximum: int)
    requires DeskOk(d, change) && BuildCommand(change, minimum, maximum).Ok? && Effective(change)
    requires var stopped := Steps(d, change, events);
             KeyOf(change) in stopped.w.ledger.executions && IsActive(stopped.w.ledger.executions[KeyOf(change)].status)
    ensures var stopped := Steps(d, change, events);
            var restored := Step(Step(stopped, change, Act(Crash(0))), change, Restore);
            var status := StatusOf(restored.w.ledger, KeyOf(change));
            && restored.value == stopped.value && restored.w.log == stopped.w.log
            && (status == Some(Applied) <==> stopped.value == change.target)
            && (status == Some(Failed) <==> stopped.value == change.source)
            && (status == Some(UnknownResult) <==> stopped.value != change.source && stopped.value != change.target)
            && Truthful(restored, change)
  {
    hide Steps, Step, BuildCommand, InStep, Truthful, KeyOf;
    CommandChangesValue(change, minimum, maximum);
    OutcomesAreTrue(d, change, events);
    var stopped := Steps(d, change, events);
    CrashFrees(stopped, change);
    var idle := Step(stopped, change, Act(Crash(0)));
    RestoreRecords(idle, change);
    StepTrue(stopped, change, Act(Crash(0)));
    StepTrue(idle, change, Restore);
  }

  /** An account that starts at source or target never leaves them, so recovery never has to record an unknown result. */
  lemma {:induction false} ValueStays(d: Desk, change: PreparedChange, events: seq<DeskEvent>)
    ensures var later := Steps(d, change, events); later.value == d.value || later.value == change.target
    decreases |events|
  {
    hide Next, Own, Classified;
    if events != [] {
      ValueStays(Step(d, change, events[0]), change, events[1..]);
    }
  }

  /** The machine's transport calls obey the same at-most-once rule as every other interleaving. */
  lemma {:induction false} CalledOnce(d: Desk, change: PreparedChange, events: seq<DeskEvent>)
    requires WorldOk(d.w)
    ensures WorldOk(Steps(d, change, events).w) && CallsOf(Steps(d, change, events).w.log, KeyOf(change)) <= 1
    decreases |events|
  {
    hide Next, Own, Classified, PlansOk, AuthorityOk, CallsOf, KeyOf;
    if events != [] {
      StepIsNext(d, change, events[0]);
      CalledOnce(Step(d, change, events[0]), change, events[1..]);
    }
  }

  lemma StepIsNext(d: Desk, change: PreparedChange, event: DeskEvent)
    requires WorldOk(d.w)
    ensures WorldOk(Step(d, change, event).w)
  {
    hide Next, WorldOk, Own, Classified, KeyOf;
    match event
    case Act(own) => StepKeeps(d.w, own);
    case Deliver(applied) => StepKeeps(d.w, Call(0));
    case Settle => StepKeeps(d.w, Classify(0, Classified(change, d.value)));
    case Restore => StepKeeps(d.w, Reconcile(KeyOf(change), Classified(change, d.value)));
    case CheckAgain(mandate, now) =>
      StepKeeps(d.w, RecordReadback(change.proposal, mandate, Classified(change, d.value), now));
  }
}
