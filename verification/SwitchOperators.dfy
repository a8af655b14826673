/** Operators of the two-store kill switch: what one operator keeps, and which interleavings of two make the stores differ. */
module SwitchOperators {
  import opened Commands
  import opened ExecutionLedger
  import opened Dispatch
  import opened KillNames
  import opened KillSwitch

  // ---------- one scope, row and signal ----------

  /** The kill switch of one scope: its row in the database and its signal in the sidecar. */
  datatype Pair = Pair(row: bool, signal: bool)

  function PairOf(w: World, scope: string): Pair {
    Pair(scope in w.ledger.switches && w.ledger.switches[scope], KillSignal(scope) in w.signals)
  }

  /** An active row is backed by an active signal. */
  predicate BackedAt(w: World, scope: string) {
    PairOf(w, scope).row ==> PairOf(w, scope).signal
  }

  predicate Touches(event: Event, scope: string) {
    event == SignalKill(scope) || event == SwitchRow(scope, true) || event == SwitchRow(scope, false) || event == ClearKill(scope)
  }

  function After(pair: Pair, event: Event): Pair {
    match event
    case SignalKill(_) => pair.(signal := true)
    case SwitchRow(_, on) => pair.(row := on)
    case ClearKill(_) => pair.(signal := false)
    case _ => pair
  }

  /** Only the operators' own four commits move the pair of a scope. */
  lemma NextPair(w: World, event: Event, scope: string)
    ensures PairOf(Next(w, event), scope) == if Touches(event, scope) then After(PairOf(w, scope), event) else PairOf(w, scope)
  {
    hide Next;
    if event.SignalKill? || event.SwitchRow? || event.ClearKill? {
      OperatorStep(w, event, Others(w, event));
    } else {
      SwitchesStay(w, event);
    }
  }

  lemma OperatorStep(w: World, event: Event, later: World)
    requires event.SignalKill? || event.SwitchRow? || event.ClearKill?
    requires later == Others(w, event)
    ensures Next(w, event) == later
  {
    hide DoStart, DoConsume, DoStartQuiet, DoBeginQuiet, DoReleaseQuiet, DoFinishQuiet, DoHold, DoFinishHeld, DoStartHeld, DoReadCheck,
         DoCall, DoRefuse, DoRelease, DoBlock, DoClassify, Others;
  }

  lemma SwitchesStay(w: World, event: Event)
    requires !event.SignalKill? && !event.SwitchRow? && !event.ClearKill?
    ensures Next(w, event).ledger.switches == w.ledger.switches
    ensures forall scope :: KillSignal(scope) in Next(w, event).signals <==> KillSignal(scope) in w.signals
  {
    if event.Start? || event.Consume? || event.StartQuiet? || event.BeginQuiet? || event.ReleaseQuiet? || event.FinishQuiet? {
      ApprovalPathSwitches(w, event);
      hide Next;
    } else if event.Hold? || event.FinishHeld? || event.StartHeld? || event.ReadCheck? {
      MandatePathSwitches(w, event);
      hide Next;
    } else if event.Call? || event.Refuse? || event.Reject? || event.Release? || event.Block? || event.Classify? || event.Crash? {
      SettlingSwitches(w, event);
      hide Next;
    } else {
      OutsideSwitches(w, event);
      assert Next(w, event) == Others(w, event);
      hide Next;
    }
  }

  lemma ApprovalPathSwitches(w: World, event: Event)
    requires event.Start? || event.Consume? || event.StartQuiet? || event.BeginQuiet? || event.ReleaseQuiet? || event.FinishQuiet?
    ensures Next(w, event).ledger.switches == w.ledger.switches && Next(w, event).signals == w.signals
  {
    hide Others, AnyUnknown, AnyActive, Stopped, Applicable, Consumable, KeyOf;
  }

  lemma MandatePathSwitches(w: World, event: Event)
    requires event.Hold? || event.FinishHeld? || event.StartHeld? || event.ReadCheck?
    ensures Next(w, event).ledger.switches == w.ledger.switches && Next(w, event).signals == w.signals
  {
    hide DoStart, DoConsume, DoStartQuiet, DoBeginQuiet, DoReleaseQuiet, DoFinishQuiet, DoCall, DoRefuse, DoReject, DoRelease,
         DoBlock, DoClassify, Others, AnyUnknown, AnyActive, MandateProblem, BindingProblem, SwitchOn, QuotaProblem, Exposure,
         StepPercent, ConsumedBy, ReadPasses, KeyOf;
  }

  lemma SettlingSwitches(w: World, event: Event)
    requires event.Call? || event.Refuse? || event.Reject? || event.Release? || event.Block? || event.Classify? || event.Crash?
    ensures Next(w, event).ledger.switches == w.ledger.switches && Next(w, event).signals == w.signals
  {
    hide DoStart, DoConsume, DoStartQuiet, DoBeginQuiet, DoReleaseQuiet, DoFinishQuiet, DoHold, DoFinishHeld, DoStartHeld,
         DoReadCheck, Others, KeyOf;
  }

  lemma OutsideSwitches(w: World, event: Event)
    requires !event.SignalKill? && !event.SwitchRow? && !event.ClearKill?
    ensures Others(w, event).ledger.switches == w.ledger.switches
    ensures forall scope :: KillSignal(scope) in Others(w, event).signals <==> KillSignal(scope) in w.signals
  {
    hide IsBlank, ConsumedBy, KeyOf, SoundTerms;
  }

  // ---------- when an event leaves a row without its signal ----------

  /** The two commits that can leave a row without its signal: clearing under an active row, and a row without a signal. */
  predicate Unbacks(w: World, event: Event, scope: string) {
    || (event == ClearKill(scope) && PairOf(w, scope).row)
    || (event == SwitchRow(scope, true) && !PairOf(w, scope).signal)
  }

  lemma StepStaysBacked(w: World, event: Event, scope: string)
    requires BackedAt(w, scope)
    ensures BackedAt(Next(w, event), scope) <==> !Unbacks(w, event, scope)
  {
    hide Next;
    NextPair(w, event, scope);
  }

  /** Where a run stands after its first `n` events. */
  function Point(w: World, events: seq<Event>, n: nat): World
    requires n <= |events|
  {
    Run(w, events[..n])
  }

  /** Over a run every point is backed if and only if the run starts backed and none of its events is one of those two. */
  lemma {:induction false} RunStaysBacked(w: World, events: seq<Event>, scope: string)
    ensures (forall n :: 0 <= n <= |events| ==> BackedAt(Point(w, events, n), scope))
       <==> BackedAt(w, scope) && forall n :: 0 <= n < |events| ==> !Unbacks(Point(w, events, n), events[n], scope)
  {
    hide BackedAt, Unbacks;
    assert Point(w, events, 0) == w;
    hide Point;
    if forall n :: 0 <= n <= |events| ==> BackedAt(Point(w, events, n), scope) {
      forall n | 0 <= n < |events| ensures !Unbacks(Point(w, events, n), events[n], scope) {
        PointStaysBacked(w, events, scope, n);
      }
    } else if BackedAt(w, scope) && forall n :: 0 <= n < |events| ==> !Unbacks(Point(w, events, n), events[n], scope) {
      for n := 0 to |events|
        invariant forall i :: 0 <= i <= n ==> BackedAt(Point(w, events, i), scope)
      {
        PointStaysBacked(w, events, scope, n);
      }
    }
  }

  lemma {:induction false} PointStaysBacked(w: World, events: seq<Event>, scope: string, n: nat)
    requires n < |events| && BackedAt(Point(w, events, n), scope)
    ensures BackedAt(Point(w, events, n + 1), scope) <==> !Unbacks(Point(w, events, n), events[n], scope)
  {
    hide BackedAt, Unbacks, Point;
    NextPoint(w, events, n);
    StepStaysBacked(Point(w, events, n), events[n], scope);
  }

  lemma {:induction false} NextPoint(w: World, events: seq<Event>, n: nat)
    requires n < |events|
    ensures Point(w, events, n + 1) == Next(Point(w, events, n), events[n])
  {
    hide Next;
    assert events[..n + 1] == events[..n] + [events[n]];
    RunThen(w, events[..n], events[n]);
  }

  lemma {:induction false} RunThen(w: World, events: seq<Event>, event: Event)
    ensures Run(w, events + [event]) == Next(Run(w, events), event)
    decreases |events|
  {
    hide Next;
    if events == [] {
      assert events + [event] == [event] && [event][1..] == [];
    } else {
      assert (events + [event])[1..] == events[1..] + [event];
      RunThen(Next(w, events[0]), events[1..], event);
    }
  }

  // ---------- one engage beside one release ----------

  /** The commits of a run that touch the scope, in order. */
  function Commits(events: seq<Event>, scope: string): seq<Event> {
    if events == [] then []
    else if Touches(events[0], scope) then [events[0]] + Commits(events[1..], scope)
    else Commits(events[1..], scope)
  }

  function AfterAll(pair: Pair, commits: seq<Event>): Pair
    decreases |commits|
  {
    if commits == [] then pair else AfterAll(After(pair, commits[0]), commits[1..])
  }

  /** The pair after a run depends on the scope's own commits only. */
  lemma {:induction false} RunPair(w: World, events: seq<Event>, scope: string)
    ensures PairOf(Run(w, events), scope) == AfterAll(PairOf(w, scope), Commits(events, scope))
    decreases |events|
  {
    hide Next, PairOf, Touches;
    if events != [] {
      NextPair(w, events[0], scope);
      RunPair(Next(w, events[0]), events[1..], scope);
      if Touches(events[0], scope) {
        assert Commits(events, scope)[1..] == Commits(events[1..], scope);
      }
    }
  }

  function Engage(scope: string): seq<Event> {
    [SignalKill(scope), SwitchRow(scope, true)]
  }

  function Release(scope: string): seq<Event> {
    [SwitchRow(scope, false), ClearKill(scope)]
  }

  /** `all` merges `one` and `two`, each in its own order. */
  predicate Merges(one: seq<Event>, two: seq<Event>, all: seq<Event>)
    decreases |all|
  {
    if all == [] then one == [] && two == []
    else
      || (one != [] && one[0] == all[0] && Merges(one[1..], two, all[1..]))
      || (two != [] && two[0] == all[0] && Merges(one, two[1..], all[1..]))
  }

  /**
   * Two operators, one engaging and one releasing a scope, with any other events between their commits: the row ends
   * backed if and only if one of them was done before the other began. Every overlap leaves a row without its signal.
   */
  lemma {:induction false} OverlapDiverges(w: World, events: seq<Event>, scope: string)
    requires Merges(Engage(scope), Release(scope), Commits(events, scope))
    ensures BackedAt(Run(w, events), scope)
       <==> Commits(events, scope) == Engage(scope) + Release(scope) || Commits(events, scope) == Release(scope) + Engage(scope)
    ensures !BackedAt(Run(w, events), scope) ==> PairOf(Run(w, events), scope) == Pair(true, false)
  {
    hide Run, Commits, Merges, Touches, AfterAll;
    var all := Commits(events, scope);
    RunPair(w, events, scope);
    SixMerges(scope, all);
    var pair := PairOf(w, scope);
    AfterFour(pair, all[0], all[1], all[2], all[3]);
    assert all == [all[0], all[1], all[2], all[3]];
    hide PairOf;
  }

  lemma {:induction false} AfterFour(pair: Pair, a: Event, b: Event, c: Event, d: Event)
    ensures AfterAll(pair, [a, b, c, d]) == After(After(After(After(pair, a), b), c), d)
  {
    hide After;
    assert [a, b, c, d][1..] == [b, c, d] && [b, c, d][1..] == [c, d] && [c, d][1..] == [d] && [d][1..] == [];
    assert AfterAll(pair, [a, b, c, d]) == AfterAll(After(pair, a), [b, c, d]);
    assert AfterAll(After(pair, a), [b, c, d]) == AfterAll(After(After(pair, a), b), [c, d]);
    assert AfterAll(After(After(pair, a), b), [c, d]) == AfterAll(After(After(After(pair, a), b), c), [d]);
  }

  lemma {:induction false} SixMerges(scope: string, all: seq<Event>)
    requires Merges(Engage(scope), Release(scope), all)
    ensures |all| == 4
    ensures var s, on, off, c := SignalKill(scope), SwitchRow(scope, true), SwitchRow(scope, false), ClearKill(scope);
            || all == [s, on, off, c] || all == [off, c, s, on]
            || all == [s, off, on, c] || all == [s, off, c, on] || all == [off, s, on, c] || all == [off, s, c, on]
  {
    var s, on, off, c := SignalKill(scope), SwitchRow(scope, true), SwitchRow(scope, false), ClearKill(scope);
    assert Engage(scope) == [s] + [on] && Release(scope) == [off] + [c];
    hide Merges, Engage, Release;
    MergesHead(s, [on], off, [c], all);
    if all[0] == s && Merges([on], [off] + [c], all[1..]) {
      HeadAndPair(s, on, off, c, all);
    } else {
      MergesSwap([s] + [on], [c], all[1..]);
      HeadAndPair(off, c, s, on, all);
    }
  }

  /** After `a`, `b` comes before, between or after `c` and `d`. */
  lemma HeadAndPair(a: Event, b: Event, c: Event, d: Event, all: seq<Event>)
    requires all != [] && all[0] == a && Merges([b], [c] + [d], all[1..])
    ensures all == [a, b, c, d] || all == [a, c, b, d] || all == [a, c, d, b]
  {
    var rest := all[1..];
    hide Merges;
    assert [b] == [b] + [];
    MergesHead(b, [], c, [d], rest);
    if rest[0] == b && Merges([], [c] + [d], rest[1..]) {
      MergesNone([c] + [d], rest[1..]);
      Joined(all, a, b, c, d);
    } else {
      MergesPair(b, d, rest[1..]);
      Joined(all, a, c, rest[1..][0], rest[1..][1]);
    }
  }

  lemma {:induction false} MergesSwap(one: seq<Event>, two: seq<Event>, all: seq<Event>)
    requires Merges(one, two, all)
    ensures Merges(two, one, all)
    decreases |all|
  {
    if all != [] {
      if one != [] && one[0] == all[0] && Merges(one[1..], two, all[1..]) {
        MergesSwap(one[1..], two, all[1..]);
      } else {
        MergesSwap(one, two[1..], all[1..]);
      }
    }
  }

  lemma Joined(all: seq<Event>, a: Event, b: Event, c: Event, d: Event)
    requires |all| >= 2 && all[0] == a && all[1] == b && all[1..][1..] == [c, d]
    ensures all == [a, b, c, d]
  {
    assert all == [all[0], all[1]] + all[2..];
  }

  lemma {:induction false} MergesHead(a: Event, one: seq<Event>, b: Event, two: seq<Event>, all: seq<Event>)
    requires Merges([a] + one, [b] + two, all)
    ensures all != []
    ensures (all[0] == a && Merges(one, [b] + two, all[1..])) || (all[0] == b && Merges([a] + one, two, all[1..]))
  {
    assert ([a] + one)[1..] == one && ([b] + two)[1..] == two;
  }

  lemma {:induction false} MergesNone(one: seq<Event>, all: seq<Event>)
    requires Merges(one, [], all) || Merges([], one, all)
    ensures all == one
    decreases |all|
  {
    if all != [] {
      MergesNone(one[1..], all[1..]);
    }
  }

  lemma {:induction false} MergesPair(a: Event, b: Event, all: seq<Event>)
    requires Merges([a], [b], all)
    ensures all == [a, b] || all == [b, a]
  {
    assert [a] == [a] + [] && [b] == [b] + [];
    MergesHead(a, [], b, [], all);
    if all[0] == a && Merges([], [b], all[1..]) {
      MergesNone([b], all[1..]);
    } else {
      MergesNone([a], all[1..]);
    }
  }

  /** Every check made now, undisturbed, refuses: the start, the approval path's last check, and the mandate path's. */
  predicate Refuses(w: World, change: PreparedChange, id: string, now: int) {
    && Stopped(w.ledger, w.signals, change.scope)
    && !SendOnce(w.ledger, w.signals, change, id, now).1.Moved?
    && !ConsumeReserved(w.ledger, w.signals, change, id, now).1.Moved?
    && !DispatchAllowed(w.ledger, w.signals, id, change.scope, now)
  }

  /** A row without its signal still stops every check that reads the rows. */
  lemma RowStillStops(w: World, scope: string, change: PreparedChange, id: string, now: int)
    requires PairOf(w, scope).row && Names(scope, change.scope)
    ensures Refuses(w, change, id, now)
    ensures !MandateReserve(w.ledger, w.signals, change, id, now).1.Moved? && !MandateSend(w.ledger, w.signals, change, id, now).1.Moved?
  {
    ScopesAreNamed(change.scope);
    hide KillScopes, AnyUnknown, AnyActive, Applicable, Consumable, MandateProblem, BindingProblem, QuotaProblem, Exposure,
         StepPercent, ConsumedBy, KeyOf;
  }

  // ---------- engaged until released ----------

  /**
   * From the first commit of an engage until the last commit of a release every check of the scope begun then is refused,
   * and the only calls of the scope are of executors that had read past the signal before it was committed.
   */
  lemma {:induction false} EngagedUntilReleased(w: World, events: seq<Event>, scope: string)
    requires ClearKill(scope) !in events
    ensures var later := Run(Next(w, SignalKill(scope)), events);
            && (forall change: PreparedChange, id, now :: Names(scope, change.scope) ==> Refuses(later, change, id, now))
            && OnlyPastCalled(w, later.log, KillSignal(scope))
            && (NobodyPast(w, KillSignal(scope)) ==> NothingSince(later.log, |w.log|, KillSignal(scope)))
  {
    hide Run, Next, NobodyPast, NothingSince, OnlyPastCalled, Refuses, Commits;
    var signalled := Next(w, SignalKill(scope));
    NextPair(w, SignalKill(scope), scope);
    RunPair(signalled, events, scope);
    SignalStays(PairOf(signalled, scope), events, scope);
    var later := Run(signalled, events);
    forall change: PreparedChange, id, now | Names(scope, change.scope)
      ensures Refuses(later, change, id, now)
    {
      SignalStops(later, scope, change, id, now);
    }
    hide PairOf, Names;
    QuietSignal(w, scope);
    NothingSentAgainstSignal(signalled, events, KillSignal(scope));
    SamePast(w, signalled, later.log, KillSignal(scope));
  }

  lemma SamePast(w: World, later: World, log: seq<Entry>, signal: Signal)
    requires later.executors == w.executors && later.log == w.log
    ensures OnlyPastCalled(later, log, signal) == OnlyPastCalled(w, log, signal)
    ensures NobodyPast(later, signal) == NobodyPast(w, signal)
  {
    hide Bars;
  }

  lemma SignalStops(w: World, scope: string, change: PreparedChange, id: string, now: int)
    requires PairOf(w, scope).signal && Names(scope, change.scope)
    ensures Refuses(w, change, id, now)
  {
    ScopesAreNamed(change.scope);
    hide KillScopes, AnyUnknown, AnyActive, Applicable, Consumable, MandateProblem, SwitchOn, KeyOf;
  }

  lemma QuietSignal(w: World, scope: string)
    ensures var later := Next(w, SignalKill(scope));
            later.log == w.log && later.executors == w.executors && KillSignal(scope) in later.signals
  {
    OperatorStep(w, SignalKill(scope), Others(w, SignalKill(scope)));
    hide Next;
  }

  lemma {:induction false} SignalStays(pair: Pair, events: seq<Event>, scope: string)
    requires pair.signal && ClearKill(scope) !in events
    ensures AfterAll(pair, Commits(events, scope)).signal
    decreases |events|
  {
    if events != [] {
      assert events == [events[0]] + events[1..];
      SignalStays(if Touches(events[0], scope) then After(pair, events[0]) else pair, events[1..], scope);
      if Touches(events[0], scope) {
        assert Commits(events, scope)[1..] == Commits(events[1..], scope);
      }
    }
  }

  // ---------- one operator at a time per scope ----------

  datatype OperatorAt = Resting | Engaging | Disengaging

  /** The two stores and where each scope's operator stands between its two commits. */
  datatype Switches = Switches(rows: map<string, bool>, signals: set<Signal>, operators: map<string, OperatorAt>)

  datatype Step =
    | EngageSignal(scope: string)
    | EngageRow(scope: string)
    | ReleaseRow(scope: string)
    | ReleaseSignal(scope: string)
    | OperatorCrash(scope: string)

  function OperatorOf(s: Switches, scope: string): OperatorAt {
    if scope in s.operators then s.operators[scope] else Resting
  }

  /** Engaging commits signal then row, releasing row then signal; a crash loses only the operator's place. */
  function Operate(s: Switches, step: Step): Switches {
    match step
    case EngageSignal(scope) =>
      if OperatorOf(s, scope) != Resting then s
      else s.(signals := s.signals + {KillSignal(scope)}, operators := s.operators[scope := Engaging])
    case EngageRow(scope) =>
      if OperatorOf(s, scope) != Engaging then s
      else s.(rows := s.rows[scope := true], operators := s.operators[scope := Resting])
    case ReleaseRow(scope) =>
      if OperatorOf(s, scope) != Resting then s
      else s.(rows := s.rows[scope := false], operators := s.operators[scope := Disengaging])
    case ReleaseSignal(scope) =>
      if OperatorOf(s, scope) != Disengaging then s
      else s.(signals := s.signals - {KillSignal(scope)}, operators := s.operators[scope := Resting])
    case OperatorCrash(scope) => s.(operators := s.operators[scope := Resting])
  }

  function OperateAll(s: Switches, steps: seq<Step>): Switches
    decreases |steps|
  {
    if steps == [] then s else OperateAll(Operate(s, steps[0]), steps[1..])
  }

  predicate RowOn(s: Switches, scope: string) {
    scope in s.rows && s.rows[scope]
  }

  /** An active row is always backed by an active signal. */
  ghost predicate Backed(s: Switches) {
    forall scope ::
      && (RowOn(s, scope) ==> KillSignal(scope) in s.signals)
      && (OperatorOf(s, scope) == Engaging ==> KillSignal(scope) in s.signals)
      && (OperatorOf(s, scope) == Disengaging ==> !RowOn(s, scope))
  }

  lemma {:induction false} OperatorsKeepBacked(s: Switches, steps: seq<Step>)
    requires Backed(s)
    ensures Backed(OperateAll(s, steps))
    decreases |steps|
  {
    if steps != [] {
      OperatorsKeepBacked(Operate(s, steps[0]), steps[1..]);
    }
  }

  // ---------- operators are events of the interleaving ----------

  /** The world shows the operators' two stores. */
  predicate Shows(w: World, s: Switches) {
    w.ledger.switches == s.rows && w.signals == s.signals
  }

  /** Whatever the operators do, the interleaving of executors and operators can do too, so one operator keeps rows backed. */
  lemma {:induction false} OperatorsAreARun(w: World, s: Switches, steps: seq<Step>) returns (events: seq<Event>)
    requires Shows(w, s)
    ensures Shows(Run(w, events), OperateAll(s, steps))
    ensures Backed(s) ==> forall scope :: BackedAt(Run(w, events), scope)
    decreases |steps|
  {
    hide Run, Next, Operate, Backed;
    events := [];
    if steps == [] {
      assert Run(w, []) == w by { RunNone(w); }
      BackedShows(w, s);
    } else {
      var event := OperatorEvent(w, s, steps[0]);
      var next := Run(w, event);
      if Backed(s) {
        OperatorsKeepBacked(s, [steps[0]]);
        assert OperateAll(s, [steps[0]]) == Operate(s, steps[0]) by { OperateOne(s, steps[0]); }
      }
      var rest := OperatorsAreARun(next, Operate(s, steps[0]), steps[1..]);
      RunConcat(w, event, rest);
      events := event + rest;
    }
  }

  lemma BackedShows(w: World, s: Switches)
    requires Shows(w, s)
    ensures Backed(s) ==> forall scope :: BackedAt(w, scope)
  {
    if Backed(s) {
      forall scope ensures BackedAt(w, scope) {
        assert RowOn(s, scope) ==> KillSignal(scope) in s.signals;
      }
    }
  }

  lemma {:induction false} RunNone(w: World)
    ensures Run(w, []) == w
  {
  }

  lemma {:induction false} OperateOne(s: Switches, step: Step)
    ensures OperateAll(s, [step]) == Operate(s, step)
  {
    assert [step][1..] == [];
  }

  lemma {:induction false} RunConcat(w: World, first: seq<Event>, second: seq<Event>)
    ensures Run(w, first + second) == Run(Run(w, first), second)
    decreases |first|
  {
    hide Next;
    if first == [] {
      assert first + second == second;
    } else {
      assert (first + second)[1..] == first[1..] + second;
      RunConcat(Next(w, first[0]), first[1..], second);
    }
  }

  lemma OperatorEvent(w: World, s: Switches, step: Step) returns (events: seq<Event>)
    requires Shows(w, s)
    ensures Shows(Run(w, events), Operate(s, step))
  {
    hide Next;
    var event := match step
      case EngageSignal(scope) => SignalKill(scope)
      case EngageRow(scope) => SwitchRow(scope, true)
      case ReleaseRow(scope) => SwitchRow(scope, false)
      case ReleaseSignal(scope) => ClearKill(scope)
      case OperatorCrash(scope) => Dispatch.Event.Crash(0);
    if Operate(s, step).rows == s.rows && Operate(s, step).signals == s.signals {
      events := [];
    } else {
      OperatorStep(w, event, Others(w, event));
      events := [event];
      assert [event][1..] == [];
    }
  }
}
