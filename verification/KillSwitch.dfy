/** The two-store kill switch and mandate revocation fail closed, wherever an operator's process stops. */
module KillSwitch {
  import opened Basics
  import opened Commands
  import opened ExecutionLedger
  import opened Dispatch
  import opened KillNames

  // ---------- a standing signal stops the transport ----------

  /** The calls a signal is meant to stop. */
  predicate Bars(signal: Signal, change: PreparedChange, path: Path) {
    match signal
    case KillSignal(scope) => Names(scope, change.scope)
    case RevokedSignal(mandate) => path == ByMandate(mandate)
  }

  predicate Clears(event: Event, signal: Signal) {
    event.ClearKill? && signal == KillSignal(event.scope)
  }

  /** Whether an executor has the read of this signal behind it. */
  predicate Past(position: Position, signal: Signal) {
    match position
    case Armed(_, _) => true
    case Checked(_, ByApproval(_), _) => true
    case Checked(_, ByMandate(_), made) => made >= if signal.RevokedSignal? then 1 else 2
    case _ => false
  }

  /** An executor whose call the signal is meant to stop, and which will not read the signal any more. */
  predicate Escapes(position: Position, signal: Signal) {
    Past(position, signal) && Bars(signal, position.change, position.path)
  }

  ghost predicate NobodyPast(w: World, signal: Signal) {
    forall ex :: ex in w.executors ==> !Escapes(w.executors[ex], signal)
  }

  /** Everybody who escapes now escaped at the first moment already, on the way to the same call. */
  ghost predicate OnlyPast(first: World, w: World, signal: Signal) {
    forall ex :: ex in w.executors && Escapes(w.executors[ex], signal) ==>
      && ex in first.executors && Escapes(first.executors[ex], signal)
      && first.executors[ex].change == w.executors[ex].change && first.executors[ex].path == w.executors[ex].path
  }

  ghost predicate CalledBy(first: World, entry: Entry, signal: Signal)
    requires entry.Transport?
  {
    exists ex :: ex in first.executors && Escapes(first.executors[ex], signal)
                 && first.executors[ex].change == entry.change && first.executors[ex].path == entry.path
  }

  /** Of the calls the signal bars, those made since the first moment are of executors that escaped then. */
  ghost predicate OnlyPastCalled(first: World, log: seq<Entry>, signal: Signal) {
    && |first.log| <= |log|
    && forall i :: |first.log| <= i < |log| && log[i].Transport? && Bars(signal, log[i].change, log[i].path) ==>
         CalledBy(first, log[i], signal)
  }

  /** The calls made after the first `n` entries of the log are none of those the signal bars. */
  ghost predicate NothingSince(log: seq<Entry>, n: nat, signal: Signal) {
    forall i :: n <= i < |log| && log[i].Transport? ==> !Bars(signal, log[i].change, log[i].path)
  }

  lemma SignalsStay(w: World, event: Event, signal: Signal)
    requires signal in w.signals && !Clears(event, signal)
    ensures signal in Next(w, event).signals
  {
    hide SendOnce, ConsumeRows, ReserveExecution, BeginExecution, MandateReserve, MandateSend, ReadPasses, Finish,
         RecordRecheck, Grant, RevokeApproval, Issue, Activate, RevokeMandate, SetSwitch, ReleaseReservation, KeyOf;
  }

  /** The read of a standing signal refuses, so nobody comes to be past it. */
  lemma NobodyPasses(first: World, w: World, event: Event, signal: Signal)
    requires signal in w.signals && OnlyPast(first, w, signal)
    ensures OnlyPast(first, Next(w, event), signal)
  {
    hide OnlyPast, Escapes;
    if event.Consume? {
      ConsumePasses(w, event.ex, event.now, signal);
    } else if event.ReadCheck? {
      ReadStops(w, event.ex, event.now, signal);
    } else {
      OthersStay(w, event, signal);
      hide Next;
    }
    PastStays(first, w, Next(w, event), signal);
  }

  /** Whoever escapes after the event escaped before it, with the same change and path. */
  ghost predicate StillPast(w: World, later: World, signal: Signal) {
    forall ex :: ex in later.executors && Escapes(later.executors[ex], signal) ==>
      && ex in w.executors && Escapes(w.executors[ex], signal)
      && w.executors[ex].change == later.executors[ex].change && w.executors[ex].path == later.executors[ex].path
  }

  lemma PastStays(first: World, w: World, later: World, signal: Signal)
    requires OnlyPast(first, w, signal) && StillPast(w, later, signal)
    ensures OnlyPast(first, later, signal)
  {
    hide Escapes;
  }

  lemma ConsumePasses(w: World, ex: nat, now: int, signal: Signal)
    ensures StillPast(w, DoConsume(w, ex, now), signal)
  {
    hide Bars, ConsumeRows;
  }

  lemma ReadStops(w: World, ex: nat, now: int, signal: Signal)
    requires signal in w.signals
    ensures StillPast(w, DoReadCheck(w, ex, now), signal)
  {
    hide SwitchOn, MandateStands, KillScopes;
    if ex in w.executors {
      ScopesAreNamed(w.executors[ex].change.scope);
    }
  }

  lemma OthersStay(w: World, event: Event, signal: Signal)
    requires !event.Consume? && !event.ReadCheck?
    ensures StillPast(w, Next(w, event), signal)
  {
    hide StillPast, Next;
    if event.Start? || event.StartQuiet? || event.BeginQuiet? || event.ReleaseQuiet? || event.FinishQuiet? || event.Hold?
       || event.FinishHeld? || event.StartHeld?
    {
      BeginnersStay(w, event, signal);
    } else {
      EndersStay(w, event, signal);
    }
  }

  lemma BeginnersStay(w: World, event: Event, signal: Signal)
    requires event.Start? || event.StartQuiet? || event.BeginQuiet? || event.ReleaseQuiet? || event.FinishQuiet? || event.Hold?
             || event.FinishHeld? || event.StartHeld?
    ensures StillPast(w, Next(w, event), signal)
  {
    hide Bars, SendOnce, ReserveExecution, BeginExecution, MandateReserve, MandateSend, Finish, ReleaseReservation, KeyOf, DoConsume,
         DoReadCheck, DoCall, DoRefuse, DoReject, DoRelease, DoBlock, DoClassify, Others;
  }

  lemma EndersStay(w: World, event: Event, signal: Signal)
    requires !event.Consume? && !event.ReadCheck? && !event.Start? && !event.StartQuiet? && !event.BeginQuiet?
    requires !event.ReleaseQuiet? && !event.FinishQuiet? && !event.Hold? && !event.FinishHeld? && !event.StartHeld?
    ensures StillPast(w, Next(w, event), signal)
  {
    hide Bars, Finish, RecordRecheck, Grant, RevokeApproval, Issue, Activate, RevokeMandate, SetSwitch, ReleaseReservation, KeyOf,
         DoConsume, DoReadCheck, DoStart, DoStartQuiet, DoBeginQuiet, DoReleaseQuiet, DoFinishQuiet, DoHold, DoFinishHeld, DoStartHeld;
  }

  lemma OnlyArmedCall(w: World, event: Event)
    ensures var log := Next(w, event).log;
            log == w.log || (|log| == |w.log| + 1 && log[..|w.log|] == w.log && (Last(log).Transport? ==> ByArmed(w, Last(log))))
  {
    hide SendOnce, ConsumeRows, ReserveExecution, BeginExecution, MandateReserve, MandateSend, ReadPasses, Finish,
         RecordRecheck, Grant, RevokeApproval, Issue, Activate, RevokeMandate, SetSwitch, ReleaseReservation, KeyOf;
  }

  ghost predicate ByArmed(w: World, entry: Entry)
    requires entry.Transport?
  {
    exists ex :: ex in w.executors && w.executors[ex].Armed?
                 && w.executors[ex].change == entry.change && w.executors[ex].path == entry.path
  }

  lemma CallIsOfPast(first: World, w: World, event: Event, signal: Signal)
    requires OnlyPast(first, w, signal) && OnlyPastCalled(first, w.log, signal)
    ensures OnlyPastCalled(first, Next(w, event).log, signal)
  {
    hide Next, Bars;
    OnlyArmedCall(w, event);
    var log := Next(w, event).log;
    forall i | |first.log| <= i < |log| && log[i].Transport? && Bars(signal, log[i].change, log[i].path)
      ensures CalledBy(first, log[i], signal)
    {
      if i < |w.log| {
        assert log[i] == w.log[i];
      } else {
        var ex :| ex in w.executors && w.executors[ex].Armed?
                  && w.executors[ex].change == log[i].change && w.executors[ex].path == log[i].path;
        assert Escapes(w.executors[ex], signal);
      }
    }
  }

  lemma {:induction false} OnlyThosePastCall(first: World, w: World, events: seq<Event>, signal: Signal)
    requires signal in w.signals && OnlyPast(first, w, signal) && OnlyPastCalled(first, w.log, signal)
    requires forall event <- events :: !Clears(event, signal)
    ensures signal in Run(w, events).signals && OnlyPastCalled(first, Run(w, events).log, signal)
    decreases |events|
  {
    hide Next, OnlyPast, OnlyPastCalled, Clears;
    if events != [] {
      var event := events[0];
      assert event in events;
      SignalsStay(w, event, signal);
      NobodyPasses(first, w, event, signal);
      CallIsOfPast(first, w, event, signal);
      assert forall other :: other in events[1..] ==> other in events;
      OnlyThosePastCall(first, Next(w, event), events[1..], signal);
    }
  }

  /**
   * Fails closed: from the moment a signal stands, and while it is not cleared, the only calls it bars that still reach the
   * transport are those of executors that had read past it before, whatever anybody does; when there is none, no such call
   * is made.
   */
  lemma {:induction false} NothingSentAgainstSignal(w: World, events: seq<Event>, signal: Signal)
    requires signal in w.signals
    requires forall event <- events :: !Clears(event, signal)
    ensures signal in Run(w, events).signals && OnlyPastCalled(w, Run(w, events).log, signal)
    ensures NobodyPast(w, signal) ==> NothingSince(Run(w, events).log, |w.log|, signal)
  {
    hide Run, Bars, Clears, Escapes;
    OnlyThosePastCall(w, w, events, signal);
  }

  /** A revocation's sidecar signal is never cleared, so it stops the mandate forever, whether or not its row was written. */
  lemma {:induction false} RevocationIsForever(w: World, events: seq<Event>, mandate: string)
    requires RevokedSignal(mandate) in w.signals
    ensures var later := Run(w, events);
            && OnlyPastCalled(w, later.log, RevokedSignal(mandate))
            && (NobodyPast(w, RevokedSignal(mandate)) ==> NothingSince(later.log, |w.log|, RevokedSignal(mandate)))
            && (forall change, now :: !MandateReserve(later.ledger, later.signals, change, mandate, now).1.Moved?)
            && (forall change, now :: !MandateSend(later.ledger, later.signals, change, mandate, now).1.Moved?)
            && (forall scope, now :: !DispatchAllowed(later.ledger, later.signals, mandate, scope, now))
  {
    hide Run, Bars, Escapes, OnlyPastCalled, NobodyPast, NothingSince, QuotaProblem, BindingProblem, SwitchOn, ConsumedBy, AnyUnknown,
         AnyActive, Exposure, StepPercent;
    NothingSentAgainstSignal(w, events, RevokedSignal(mandate));
  }

  // ---------- who has read past a signal still calls ----------

  /** The reads of the last check that are left. */
  function ReadsLeft(position: Position): nat {
    match position
    case Cleared(_, ByApproval(_)) => 1
    case Cleared(_, ByMandate(_)) => 4
    case Checked(_, ByMandate(_), made) => if made >= 3 then 1 else 4 - made
    case _ => 0
  }

  function Reads(ex: nat, now: int, n: nat): seq<Event> {
    if n == 0 then [] else [ReadCheck(ex, now)] + Reads(ex, now, n - 1)
  }

  /** What is left of an executor's way to its call. */
  function Rest(position: Position, ex: nat, now: int): seq<Event> {
    Reads(ex, now, ReadsLeft(position))
    + (if !position.Armed? && (position.Cleared? || position.Checked?) && position.path.ByApproval? then [Consume(ex, now)] else [])
    + [Call(ex)]
  }

  /** The reads that are left find nothing against the call. */
  predicate RestPasses(w: World, position: Position, now: int) {
    match position
    case Armed(_, _) => true
    case Cleared(change, ByApproval(id)) => !Signalled(w.signals, change.scope) && ConsumeRows(w.ledger, change, id, now).1.Moved?
    case Checked(change, ByApproval(id), _) => ConsumeRows(w.ledger, change, id, now).1.Moved?
    case Cleared(change, ByMandate(id)) => ReadsPass(w, change, id, 0, now)
    case Checked(change, ByMandate(id), made) => ReadsPass(w, change, id, made, now)
    case _ => false
  }

  predicate ReadsPass(w: World, change: PreparedChange, id: string, made: nat, now: int) {
    && (made == 0 ==> RevokedSignal(id) !in w.signals)
    && (made <= 1 ==> !Signalled(w.signals, change.scope))
    && (made <= 2 ==> MandateStands(w.ledger, id, now))
    && !SwitchOn(w.ledger.switches, change.scope)
  }

  function CommitOf(signal: Signal): Event {
    match signal
    case KillSignal(scope) => SignalKill(scope)
    case RevokedSignal(mandate) => SignalRevocation(mandate)
  }

  /**
   * An executor that has read past a signal when it is committed makes its call all the same, unless one of its other reads
   * finds something.
   */
  lemma {:induction false} PastStillCalls(w: World, ex: nat, signal: Signal, now: int)
    requires ex in w.executors && Escapes(w.executors[ex], signal) && RestPasses(w, w.executors[ex], now)
    ensures var later := Run(w, [CommitOf(signal)] + Rest(w.executors[ex], ex, now));
            && signal in later.signals && |later.log| > |w.log|
            && Last(later.log) == Transport(w.executors[ex].change, w.executors[ex].path)
  {
    hide Next, Others, Rest, Bars, RestPasses, Escapes;
    var commit := CommitOf(signal);
    var rest := Rest(w.executors[ex], ex, now);
    CommitNext(w, signal);
    assert ([commit] + rest)[1..] == rest;
    SignalsAround(w, Others(w, commit), signal, w.executors[ex], now);
    RestCalls(Others(w, commit), ex, now);
  }

  /** The reads and the call that are left, one after the other. */
  lemma {:induction false} RestCalls(w: World, ex: nat, now: int)
    requires ex in w.executors && RestPasses(w, w.executors[ex], now)
    ensures var later := Run(w, Rest(w.executors[ex], ex, now));
            && later.signals == w.signals && |later.log| > |w.log| && w.log <= later.log[..|later.log| - 1]
            && Last(later.log) == Transport(w.executors[ex].change, w.executors[ex].path)
            && later.ledger.executions == w.ledger.executions
            && (w.executors[ex].path.ByMandate? ==> |later.log| == |w.log| + 1)
    decreases ReadsLeft(w.executors[ex]) + if w.executors[ex].Armed? then 0 else 1
  {
    hide Next, SwitchOn, Signalled, MandateStands, ConsumeRows, KeyOf;
    var position := w.executors[ex];
    var rest := Rest(position, ex, now);
    var next := Next(w, rest[0]);
    assert Run(w, rest) == Run(next, rest[1..]);
    if position.Armed? {
      CallNext(w, ex);
      assert rest[1..] == [];
    } else {
      ReadNext(w, ex, now);
      assert rest[1..] == Rest(next.executors[ex], ex, now) by { RestTail(position, next.executors[ex], ex, now); }
      hide Rest;
      RestCalls(next, ex, now);
    }
  }

  /** The position after one step of the way. */
  function Further(position: Position): Position
    requires position.Cleared? || position.Checked?
  {
    if position.Checked? && position.path.ByApproval? then Armed(position.change, position.path)
    else AfterRead(position.change, position.path, if position.Cleared? then 0 else position.made)
  }

  lemma RestTail(position: Position, next: Position, ex: nat, now: int)
    requires (position.Cleared? || position.Checked?) && next == Further(position)
    ensures Rest(position, ex, now)[1..] == Rest(next, ex, now)
    ensures Rest(position, ex, now)[0]
         == if position.Checked? && position.path.ByApproval? then Consume(ex, now) else ReadCheck(ex, now)
  {
  }

  lemma CallNext(w: World, ex: nat)
    requires ex in w.executors && w.executors[ex].Armed?
    ensures Next(w, Call(ex)).signals == w.signals && Next(w, Call(ex)).ledger == w.ledger
    ensures Next(w, Call(ex)).log == w.log + [Transport(w.executors[ex].change, w.executors[ex].path)]
  {
    hide DoStart, DoConsume, DoStartQuiet, DoBeginQuiet, DoReleaseQuiet, DoFinishQuiet, DoHold, DoFinishHeld, DoStartHeld, DoReadCheck,
         DoRefuse, DoRelease, DoBlock, DoClassify, Others;
  }

  lemma ReadNext(w: World, ex: nat, now: int)
    requires ex in w.executors && (w.executors[ex].Cleared? || w.executors[ex].Checked?) && RestPasses(w, w.executors[ex], now)
    ensures var position := w.executors[ex];
            var next := Next(w, Rest(position, ex, now)[0]);
            && ex in next.executors && next.signals == w.signals && w.log <= next.log
            && next.ledger.executions == w.ledger.executions && (position.path.ByMandate? ==> next.log == w.log)
            && next.executors[ex] == Further(position)
            && RestPasses(next, next.executors[ex], now)
  {
    RestTail(w.executors[ex], Further(w.executors[ex]), ex, now);
    hide SwitchOn, Signalled, MandateStands, KeyOf, Rest, DoStart, DoStartQuiet, DoBeginQuiet, DoReleaseQuiet, DoFinishQuiet, DoHold,
         DoFinishHeld, DoStartHeld, DoCall, DoRefuse, DoRelease, DoBlock, DoClassify, Others;
  }

  lemma CommitNext(w: World, signal: Signal)
    ensures Next(w, CommitOf(signal)) == Others(w, CommitOf(signal))
    ensures Others(w, CommitOf(signal)) == w.(signals := w.signals + {signal})
  {
    hide DoStart, DoConsume, DoStartQuiet, DoBeginQuiet, DoReleaseQuiet, DoFinishQuiet, DoHold, DoFinishHeld, DoStartHeld, DoReadCheck,
         DoCall, DoRefuse, DoRelease, DoBlock, DoClassify;
  }

  /** The signal is not one of those the executor has still to read. */
  lemma SignalsAround(w: World, later: World, signal: Signal, position: Position, now: int)
    requires later == w.(signals := w.signals + {signal}) && Escapes(position, signal) && RestPasses(w, position, now)
    ensures RestPasses(later, position, now)
  {
    hide SwitchOn, MandateStands, ConsumeRows;
  }
}
