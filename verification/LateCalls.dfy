/**
 * Why recorded outcomes are claimed for one executor only: with several, a readback may be recorded while somebody is still
 * on the way to the call. Exactly when such a late call can follow, and a run in which one does.
 */
module LateCalls {
  import opened Basics
  import opened Commands
  import opened ExecutionLedger
  import opened Dispatch
  import opened DispatchSafety
  import opened KillSwitch
  import opened SwitchOperators
  import opened Recovery

  // ---------- who may still call ----------

  /**
   * An executor on the way to its call that no check is bound to stop: it is armed already; or it holds an approval that is
   * still reserved for the execution, unused and unrevoked; or its mandate is not revoked where it has still to be read:
   * in the sidecar, which is read first, and in its row, which is read third.
   */
  predicate MayPass(w: World, position: Position) {
    match position
    case Armed(_, _) => true
    case Cleared(change, ByApproval(id)) => Spendable(w.ledger, id, KeyOf(change))
    case Checked(change, ByApproval(id), _) => Spendable(w.ledger, id, KeyOf(change))
    case Cleared(change, ByMandate(id)) => Standing(w, id)
    case Checked(change, ByMandate(id), made) =>
      (made == 0 ==> RevokedSignal(id) !in w.signals) && (made <= 2 ==> RowStands(w.ledger, id))
    case _ => false
  }

  predicate Spendable(l: Ledger, id: string, key: ExecutionKey) {
    id in l.approvals && l.approvals[id].reserved == Some(key) && l.approvals[id].used.None? && !l.approvals[id].revoked
  }

  predicate Standing(w: World, id: string) {
    RevokedSignal(id) !in w.signals && RowStands(w.ledger, id)
  }

  predicate RowStands(l: Ledger, id: string) {
    id in l.mandates ==> l.mandates[id].status != Revoked
  }

  predicate Calls(w: World, ex: nat, key: ExecutionKey) {
    ex in w.executors && InTransit(w.executors[ex]) && KeyOf(w.executors[ex].change) == key && MayPass(w, w.executors[ex])
  }

  ghost predicate Awaited(w: World, key: ExecutionKey) {
    exists ex :: Calls(w, ex, key)
  }

  /** The event records what a readback said about the execution in flight. */
  predicate Records(w: World, event: Event, key: ExecutionKey) {
    || (event.Reconcile? && event.key == key && IsReadback(event.status))
    || (event.Classify? && event.ex in w.executors && w.executors[event.ex].Sent? && KeyOf(w.executors[event.ex].change) == key
        && IsReadback(event.status))
  }

  // ---------- nobody new can come ----------

  /** What one event does for an execution that was started: nobody new is on the way to its call. */
  ghost predicate NobodyNew(w: World, later: World, key: ExecutionKey) {
    && CallsOf(later.log, key) == CallsOf(w.log, key)
    && forall ex :: Calls(later, ex, key) ==> Calls(w, ex, key)
  }

  /** Rights to call are never given back once the execution was started. */
  ghost predicate RightsFall(w: World, later: World, key: ExecutionKey) {
    && (forall id :: Spendable(later.ledger, id, key) ==> Spendable(w.ledger, id, key))
    && (forall id :: RowStands(later.ledger, id) ==> RowStands(w.ledger, id))
    && (forall id :: RevokedSignal(id) in w.signals ==> RevokedSignal(id) in later.signals)
  }

  lemma StartRights(w: World, ex: nat, proposal: string, approval: string, now: int, key: ExecutionKey)
    requires Started(w.ledger, key)
    ensures RightsFall(w, DoStart(w, ex, proposal, approval, now), key)
  {
    hide AnyUnknown, AnyActive, Stopped, Applicable, KeyOf;
  }

  lemma ApprovalRights(w: World, event: Event, key: ExecutionKey)
    requires Started(w.ledger, key)
    requires event.Consume? || event.StartQuiet? || event.BeginQuiet? || event.ReleaseQuiet? || event.FinishQuiet? || event.Release?
    ensures RightsFall(w, Next(w, event), key)
  {
    hide AnyUnknown, AnyActive, Stopped, Applicable, KeyOf, DoStart, DoHold, DoFinishHeld, DoStartHeld, DoReadCheck, DoCall, DoRefuse,
         DoReject, DoBlock, DoClassify, Others;
  }

  lemma MandateRights(w: World, event: Event, key: ExecutionKey)
    requires event.Hold? || event.FinishHeld? || event.StartHeld? || event.ReadCheck? || event.Call? || event.Refuse? || event.Reject?
             || event.Block? || event.Classify? || event.Crash?
    ensures RightsFall(w, Next(w, event), key)
  {
    hide Spendable, RowStands;
    var later := Next(w, event);
    assert later.ledger.approvals == w.ledger.approvals && later.ledger.mandates == w.ledger.mandates
           && later.signals == w.signals by { SameRights(w, event); }
    hide Next;
    forall id ensures Spendable(later.ledger, id, key) == Spendable(w.ledger, id, key) && RowStands(later.ledger, id) == RowStands(w.ledger, id) {
      SameRightsOf(w, later, id, key);
    }
  }

  lemma SameRightsOf(w: World, later: World, id: string, key: ExecutionKey)
    requires later.ledger.approvals == w.ledger.approvals && later.ledger.mandates == w.ledger.mandates && later.signals == w.signals
    ensures Spendable(later.ledger, id, key) == Spendable(w.ledger, id, key) && RowStands(later.ledger, id) == RowStands(w.ledger, id)
  {
  }

  lemma SameRights(w: World, event: Event)
    requires event.Hold? || event.FinishHeld? || event.StartHeld? || event.ReadCheck? || event.Call? || event.Refuse? || event.Reject?
             || event.Block? || event.Classify? || event.Crash?
    ensures var later := Next(w, event);
            later.ledger.approvals == w.ledger.approvals && later.ledger.mandates == w.ledger.mandates && later.signals == w.signals
  {
    hide AnyUnknown, AnyActive, MandateProblem, BindingProblem, SwitchOn, QuotaProblem, Exposure, StepPercent, ConsumedBy,
         ReadPasses, KeyOf, DoStart, DoConsume, DoStartQuiet, DoBeginQuiet, DoReleaseQuiet, DoFinishQuiet, DoRelease, Others;
  }

  lemma OutsideRights(w: World, event: Event, key: ExecutionKey)
    ensures RightsFall(w, Others(w, event), key)
  {
    hide IsBlank, ConsumedBy, KeyOf, SoundTerms;
  }

  lemma EventRights(w: World, event: Event, key: ExecutionKey)
    requires Started(w.ledger, key)
    ensures RightsFall(w, Next(w, event), key)
  {
    hide RightsFall, Started;
    match event
    case Start(ex, proposal, approval, now) => StartRights(w, ex, proposal, approval, now, key);
    case Consume(_, _) => ApprovalRights(w, event, key);
    case StartQuiet(_, _) => ApprovalRights(w, event, key);
    case BeginQuiet(_, _, _) => ApprovalRights(w, event, key);
    case ReleaseQuiet(_) => ApprovalRights(w, event, key);
    case FinishQuiet(_) => ApprovalRights(w, event, key);
    case Release(_) => ApprovalRights(w, event, key);
    case Hold(_, _, _, _) => MandateRights(w, event, key);
    case FinishHeld(_) => MandateRights(w, event, key);
    case StartHeld(_, _) => MandateRights(w, event, key);
    case ReadCheck(_, _) => MandateRights(w, event, key);
    case Call(_) => MandateRights(w, event, key);
    case Refuse(_) => MandateRights(w, event, key);
    case Reject(_, _) => MandateRights(w, event, key);
    case Block(_) => MandateRights(w, event, key);
    case Classify(_, _) => MandateRights(w, event, key);
    case Crash(_) => MandateRights(w, event, key);
    case _ => OutsideRights(w, event, key);
  }

  /** Whoever is on the way after the event was on the way before: at the same point, with the right to pass, or with none now. */
  ghost predicate TransitStays(w: World, later: World, key: ExecutionKey) {
    && CallsOf(later.log, key) == CallsOf(w.log, key)
    && forall ex :: ex in later.executors && InTransit(later.executors[ex]) && KeyOf(later.executors[ex].change) == key ==>
         ex in w.executors
         && (later.executors[ex] == w.executors[ex] || Calls(w, ex, key) || !MayPass(later, later.executors[ex]))
  }

  lemma TransitAndRights(w: World, later: World, key: ExecutionKey)
    requires TransitStays(w, later, key) && RightsFall(w, later, key)
    ensures NobodyNew(w, later, key)
  {
    hide Spendable, RowStands, CallsOf;
    forall ex | Calls(later, ex, key) ensures Calls(w, ex, key) {
      var position := later.executors[ex];
      if position == w.executors[ex] && !position.Armed? {
        match position.path
        case ByApproval(id) => assert Spendable(later.ledger, id, key) ==> Spendable(w.ledger, id, key);
        case ByMandate(id) =>
          assert RowStands(later.ledger, id) ==> RowStands(w.ledger, id);
          assert RevokedSignal(id) in w.signals ==> RevokedSignal(id) in later.signals;
      }
    }
  }

  lemma EventTransit(w: World, event: Event, key: ExecutionKey)
    requires PlansOk(w) && Started(w.ledger, key) && !Awaited(w, key)
    ensures TransitStays(w, Next(w, event), key)
  {
    hide TransitStays, Awaited, Started, PlansOk;
    match event
    case Start(ex, proposal, approval, now) => StartTransit(w, ex, proposal, approval, now, key);
    case StartHeld(ex, now) => StartHeldTransit(w, ex, now, key);
    case Consume(ex, now) => ConsumeTransit(w, ex, now, key);
    case ReadCheck(ex, now) => ReadTransit(w, ex, now, key);
    case Call(ex) => CallTransit(w, ex, key);
    case _ => QuietTransit(w, event, key);
  }

  lemma StartTransit(w: World, ex: nat, proposal: string, approval: string, now: int, key: ExecutionKey)
    requires Started(w.ledger, key)
    ensures TransitStays(w, DoStart(w, ex, proposal, approval, now), key)
  {
    hide AnyUnknown, AnyActive, Stopped, Applicable, KeyOf, Calls, CallsOf;
  }

  lemma StartHeldTransit(w: World, ex: nat, now: int, key: ExecutionKey)
    requires Started(w.ledger, key)
    ensures TransitStays(w, DoStartHeld(w, ex, now), key)
  {
    hide MandateProblem, BindingProblem, SwitchOn, ConsumedBy, KeyOf, Calls, CallsOf;
  }

  lemma ConsumeTransit(w: World, ex: nat, now: int, key: ExecutionKey)
    ensures TransitStays(w, DoConsume(w, ex, now), key)
  {
    hide Stopped, KeyOf;
    var later := DoConsume(w, ex, now);
    if |later.log| > |w.log| {
      CallsOfAppended(w.log, Last(later.log), key);
    }
    hide CallsOf;
  }

  lemma ReadTransit(w: World, ex: nat, now: int, key: ExecutionKey)
    ensures TransitStays(w, DoReadCheck(w, ex, now), key)
  {
    hide Signalled, SwitchOn, KeyOf, CallsOf;
  }

  lemma {:induction false} CallTransit(w: World, ex: nat, key: ExecutionKey)
    requires !Awaited(w, key)
    ensures TransitStays(w, DoCall(w, ex), key)
  {
    hide KeyOf;
    if ex in w.executors && w.executors[ex].Armed? {
      assert !Calls(w, ex, key);
      CallsOfAppended(w.log, Last(DoCall(w, ex).log), key);
    }
    hide CallsOf;
  }

  lemma QuietTransit(w: World, event: Event, key: ExecutionKey)
    requires PlansOk(w) && IsQuiet(event)
    ensures TransitStays(w, Next(w, event), key)
  {
    hide Next, Calls, CallsOf;
    QuietExecutors(w, event);
    if event.AddPlan? {
      AddPlanTransit(w, event.change);
    } else {
      QuietLog(w, event);
    }
  }

  lemma AddPlanTransit(w: World, change: PreparedChange)
    ensures Next(w, AddPlan(change)).log == w.log
  {
    hide DoStart, DoConsume, DoStartQuiet, DoBeginQuiet, DoReleaseQuiet, DoFinishQuiet, DoHold, DoFinishHeld, DoStartHeld, DoReadCheck,
         DoCall, DoRefuse, DoRelease, DoBlock, DoClassify;
  }

  /** With nobody on the way who may pass, a started execution is never called again, whatever happens. */
  lemma {:induction false} NeverCalledAgain(w: World, events: seq<Event>, key: ExecutionKey)
    requires WorldOk(w) && Started(w.ledger, key) && !Awaited(w, key)
    ensures CallsOf(Run(w, events).log, key) == CallsOf(w.log, key)
    decreases |events|
  {
    hide CallsOk, AuthorityOk, PlansOk, Next, Started, TransitStays, RightsFall, Calls, Advances;
    if events != [] {
      var later := Next(w, events[0]);
      EventTransit(w, events[0], key);
      EventRights(w, events[0], key);
      TransitAndRights(w, later, key);
      StepKeeps(w, events[0]);
      StepAdvances(w, events[0]);
      StartedStays(w.ledger, later.ledger, key);
      NeverCalledAgain(later, events[1..], key);
    }
  }

  // ---------- who may pass can pass ----------

  /** The operators switch everything off that could stop the scope; nothing else changes. */
  ghost predicate OnlySwitches(w: World, later: World) {
    && later.executors == w.executors && later.log == w.log && later.plans == w.plans
    && later.ledger.approvals == w.ledger.approvals && later.ledger.mandates == w.ledger.mandates
    && (forall id :: RevokedSignal(id) in later.signals <==> RevokedSignal(id) in w.signals)
    && (forall scope :: !PairOf(w, scope).row && !PairOf(w, scope).signal ==>
          !PairOf(later, scope).row && !PairOf(later, scope).signal)
  }

  lemma ClearScope(w: World, scope: string) returns (later: World)
    ensures later == Run(w, [SwitchRow(scope, false), ClearKill(scope)])
    ensures OnlySwitches(w, later) && !PairOf(later, scope).row && !PairOf(later, scope).signal
  {
    hide Next;
    var off := Others(w, SwitchRow(scope, false));
    later := Others(off, ClearKill(scope));
    OperatorStep(w, SwitchRow(scope, false), off);
    OperatorStep(off, ClearKill(scope), later);
    assert [SwitchRow(scope, false), ClearKill(scope)][1..] == [ClearKill(scope)] && [ClearKill(scope)][1..] == [];
    assert Run(w, [SwitchRow(scope, false), ClearKill(scope)]) == Run(off, [ClearKill(scope)]);
    assert Run(off, [ClearKill(scope)]) == Run(later, []);
  }

  lemma {:induction false} ClearScopes(w: World, scopes: seq<string>) returns (events: seq<Event>)
    ensures OnlySwitches(w, Run(w, events))
    ensures forall scope :: scope in scopes ==> !PairOf(Run(w, events), scope).row && !PairOf(Run(w, events), scope).signal
    decreases |scopes|
  {
    hide Run, PairOf;
    if scopes == [] {
      events := [];
      RunNone(w);
    } else {
      var later := ClearScope(w, scopes[0]);
      var rest := ClearScopes(later, scopes[1..]);
      events := [SwitchRow(scopes[0], false), ClearKill(scopes[0])] + rest;
      RunConcat(w, [SwitchRow(scopes[0], false), ClearKill(scopes[0])], rest);
      assert scopes == [scopes[0]] + scopes[1..];
    }
  }

  lemma Cleared4(w: World, scope: Scope) returns (events: seq<Event>)
    ensures OnlySwitches(w, Run(w, events)) && !Stopped(Run(w, events).ledger, Run(w, events).signals, scope)
  {
    var scopes := ["global", "organization:" + scope.organization, "connection:" + scope.connection, "campaign:" + scope.campaign];
    events := ClearScopes(w, scopes);
    hide Run, OnlySwitches;
    var later := Run(w, events);
    forall s | s in KillScopes(scope) ensures !PairOf(later, s).row && !PairOf(later, s).signal {
      assert s in scopes;
    }
    hide KillScopes;
  }

  const ANY_TERMS := MandateTerms("", "", "", {}, {}, {}, "", 1, 1, 1, 1, 1, 1, 0)

  /** A mandate whose row is not revoked can be made active. */
  lemma MandateStarts(w: World, id: string) returns (events: seq<Event>, now: int)
    requires RowStands(w.ledger, id)
    ensures Activated(w, Run(w, events), id, now)
  {
    hide Run, Others, Activated;
    if id in w.ledger.mandates {
      events := [];
      RunNone(w);
    } else {
      events := [AddMandate(id, ANY_TERMS)];
      OutsideRun(w, AddMandate(id, ANY_TERMS));
    }
    var added := Run(w, events);
    MandateAdded(w, added, id);
    now := added.ledger.mandates[id].terms.expiry - 1;
    RunThen(w, events, StartMandate(id, now));
    OutsideNext(added, StartMandate(id, now));
    events := events + [StartMandate(id, now)];
    MandateActive(w, added, id, now);
  }

  ghost predicate Activated(w: World, later: World, id: string, now: int) {
    && later.executors == w.executors && later.log == w.log && later.signals == w.signals
    && later.ledger.switches == w.ledger.switches && MandateStands(later.ledger, id, now)
  }

  lemma MandateAdded(w: World, added: World, id: string)
    requires RowStands(w.ledger, id)
    requires added == if id in w.ledger.mandates then w else Others(w, AddMandate(id, ANY_TERMS))
    ensures added == w.(ledger := added.ledger) && added.ledger == w.ledger.(mandates := added.ledger.mandates)
    ensures id in added.ledger.mandates && added.ledger.mandates[id].status != Revoked
  {
  }

  lemma MandateActive(w: World, added: World, id: string, now: int)
    requires added == w.(ledger := added.ledger) && added.ledger == w.ledger.(mandates := added.ledger.mandates)
    requires id in added.ledger.mandates && added.ledger.mandates[id].status != Revoked
    requires now < added.ledger.mandates[id].terms.expiry
    ensures Activated(w, Others(added, StartMandate(id, now)), id, now)
  {
  }

  lemma OutsideNext(w: World, event: Event)
    requires event.AddMandate? || event.StartMandate?
    ensures Next(w, event) == Others(w, event)
  {
    hide Others, DoStart, DoConsume, DoStartQuiet, DoBeginQuiet, DoReleaseQuiet, DoFinishQuiet, DoHold, DoFinishHeld, DoStartHeld,
         DoReadCheck, DoCall, DoRefuse, DoRelease, DoBlock, DoClassify;
  }

  lemma {:induction false} OutsideRun(w: World, event: Event)
    requires event.AddMandate? || event.StartMandate?
    ensures Run(w, [event]) == Others(w, event)
  {
    hide Others;
    OutsideNext(w, event);
    assert [event][1..] == [];
  }

  /** Whoever may pass can be let through: the operators switch off, the reads find nothing, and the call is made. */
  lemma {:induction false} AwaitedCalls(w: World, ex: nat, key: ExecutionKey) returns (events: seq<Event>)
    requires Calls(w, ex, key)
    ensures CallsOf(Run(w, events).log, key) > CallsOf(w.log, key)
  {
    hide Run, Next, CallsOf, KeyOf, RestPasses, Rest, Stopped, OnlySwitches, Activated;
    var position := w.executors[ex];
    var now := 0;
    if position.Armed? {
      events := [];
      RunNone(w);
      ArmedPasses(w, position, now);
    } else {
      events := Cleared4(w, position.change.scope);
      var clear := Run(w, events);
      SwitchesFrame(w, clear);
      match position.path
      case ByApproval(id) =>
        now := ApprovalPasses(w, clear, position);
      case ByMandate(id) =>
        if ReadsLeft(position) >= 2 {
          var start, at := MandateStarts(clear, id);
          now := at;
          RunConcat(w, events, start);
          events := events + start;
          MandatePasses(w, clear, Run(w, events), position, now);
          ActivatedFrame(clear, Run(w, events), id, now);
        } else {
          SwitchesPass(clear, position, now);
        }
    }
    var ready := Run(w, events);
    RestCalls(ready, ex, now);
    RunConcat(w, events, Rest(position, ex, now));
    events := events + Rest(position, ex, now);
    LaterCall(w.log, Run(w, events).log, position, key);
  }

  lemma ArmedPasses(w: World, position: Position, now: int)
    requires position.Armed?
    ensures RestPasses(w, position, now)
  {
  }

  lemma SwitchesFrame(w: World, later: World)
    requires OnlySwitches(w, later)
    ensures later.executors == w.executors && later.log == w.log && later.ledger.approvals == w.ledger.approvals
    ensures forall id :: RowStands(w.ledger, id) ==> RowStands(later.ledger, id)
    ensures forall id :: RevokedSignal(id) in later.signals ==> RevokedSignal(id) in w.signals
  {
  }

  lemma ActivatedFrame(w: World, later: World, id: string, now: int)
    requires Activated(w, later, id, now)
    ensures later.executors == w.executors && later.log == w.log
  {
  }

  lemma ApprovalPasses(w: World, clear: World, position: Position) returns (now: int)
    requires (position.Cleared? || position.Checked?) && position.path.ByApproval? && MayPass(w, position)
    requires clear.ledger.approvals == w.ledger.approvals && !Stopped(clear.ledger, clear.signals, position.change.scope)
    ensures RestPasses(clear, position, now)
  {
    hide KeyOf, Signalled, SwitchOn;
    now := clear.ledger.approvals[position.path.approval].expires - 1;
  }

  lemma MandatePasses(w: World, clear: World, later: World, position: Position, now: int)
    requires (position.Cleared? || position.Checked?) && position.path.ByMandate? && MayPass(w, position)
    requires forall id :: RevokedSignal(id) in clear.signals ==> RevokedSignal(id) in w.signals
    requires !Stopped(clear.ledger, clear.signals, position.change.scope)
    requires Activated(clear, later, position.path.mandate, now)
    ensures RestPasses(later, position, now)
  {
    hide KeyOf, KillScopes, MandateStands;
    SameStopped(clear, later, position.change.scope);
  }

  lemma SwitchesPass(w: World, position: Position, now: int)
    requires position.Checked? && position.path.ByMandate? && ReadsLeft(position) == 1
    requires !Stopped(w.ledger, w.signals, position.change.scope)
    ensures RestPasses(w, position, now)
  {
    hide SwitchOn, Signalled;
  }

  lemma SameStopped(w: World, later: World, scope: Scope)
    requires later.signals == w.signals && later.ledger.switches == w.ledger.switches
    ensures Stopped(later.ledger, later.signals, scope) == Stopped(w.ledger, w.signals, scope)
  {
    hide KillScopes;
  }

  lemma {:induction false} LaterCall(log: seq<Entry>, later: seq<Entry>, position: Position, key: ExecutionKey)
    requires InTransit(position) && KeyOf(position.change) == key
    requires |later| > |log| && log <= later[..|later| - 1] && Last(later) == Transport(position.change, position.path)
    ensures CallsOf(later, key) > CallsOf(log, key)
  {
    hide KeyOf;
    CallsGrow(log, later[..|later| - 1], key);
  }

  lemma {:induction false} CallsGrow(log: seq<Entry>, later: seq<Entry>, key: ExecutionKey)
    requires log <= later
    ensures CallsOf(log, key) <= CallsOf(later, key)
  {
    hide KeyOf;
    if |later| > |log| {
      CallsGrow(log, later[..|later| - 1], key);
    } else {
      assert later == log;
    }
  }

  // ---------- the exact condition ----------

  /** Recording a readback changes nothing for those on the way. */
  lemma RecordingKeeps(w: World, event: Event, key: ExecutionKey)
    requires key in w.ledger.executions && Records(w, event, key)
    ensures var later := Next(w, event);
            later.log == w.log && (Awaited(later, key) <==> Awaited(w, key))
  {
    var later := Next(w, event);
    assert later.log == w.log && later.ledger.approvals == w.ledger.approvals && later.ledger.mandates == w.ledger.mandates
           && later.signals == w.signals
           && later.executors == (if event.Classify? then w.executors - {event.ex} else w.executors) by { RecordingFrame(w, event, key); }
    hide Next, KeyOf;
    forall ex ensures Calls(later, ex, key) == Calls(w, ex, key) {
    }
    hide Calls;
  }

  lemma RecordingFrame(w: World, event: Event, key: ExecutionKey)
    requires Records(w, event, key)
    ensures var later := Next(w, event);
            && later.log == w.log && later.ledger.approvals == w.ledger.approvals && later.ledger.mandates == w.ledger.mandates
            && later.signals == w.signals
            && later.executors == (if event.Classify? then w.executors - {event.ex} else w.executors)
  {
    hide KeyOf, DoStart, DoConsume, DoStartQuiet, DoBeginQuiet, DoReleaseQuiet, DoStartHeld, DoFinishQuiet, DoHold, DoFinishHeld,
         DoReadCheck, DoCall, DoRefuse, DoReject, DoRelease, DoBlock;
  }

  /**
   * Recording the readback of an execution in flight can be followed by its transport call if and only if somebody on the
   * way to that call is armed, or holds an authority that may still pass its last check.
   */
  lemma {:induction false} LateCallWhen(w: World, event: Event, key: ExecutionKey)
    requires WorldOk(w) && StatusOf(w.ledger, key) == Some(InFlight) && Records(w, event, key)
    ensures (exists events: seq<Event> :: CallsOf(Run(Next(w, event), events).log, key) > CallsOf(w.log, key)) <==> Awaited(w, key)
  {
    hide WorldOk, Next, Run, CallsOf, Records, Awaited, Advances;
    var later := Next(w, event);
    RecordingKeeps(w, event, key);
    StepKeeps(w, event);
    StepAdvances(w, event);
    StartedStays(w.ledger, later.ledger, key);
    if Awaited(w, key) {
      var ex := SomebodyCalls(later, key);
      var events := AwaitedCalls(later, ex, key);
      assert CallsOf(Run(later, events).log, key) > CallsOf(w.log, key);
    } else {
      forall events: seq<Event> ensures CallsOf(Run(later, events).log, key) == CallsOf(w.log, key) {
        NeverCalledAgain(later, events, key);
      }
    }
  }

  lemma SomebodyCalls(w: World, key: ExecutionKey) returns (ex: nat)
    requires Awaited(w, key)
    ensures Calls(w, ex, key)
  {
    hide Calls;
    ex :| Calls(w, ex, key);
  }

  // ---------- a run in which it happens ----------

  /** What a mandate must allow for the change to be executed under it, alone. */
  predicate Covers(terms: MandateTerms, change: PreparedChange, now: int) {
    && SoundTerms(terms) && now < terms.expiry && BindingProblem(terms, change).None?
    && Exposure(change).Ok? && Exposure(change).value <= terms.totalLimit && Exposure(change).value <= terms.dailyLimit
    && StepPercent(change).Ok? && StepPercent(change).value <= terms.maximumStep
    && StepPercent(change).value <= terms.maximumDailyChange
  }

  /** The events up to two executors holding the same reserved execution. */
  function Opening(change: PreparedChange, id: string, terms: MandateTerms, now: int): seq<Event> {
    [AddPlan(change), AddMandate(id, terms), StartMandate(id, now), Hold(1, change.proposal, id, now),
     Hold(2, change.proposal, id, now)]
  }

  /** The second executor finds the execution in flight and records what it reads back; then the first one calls. */
  function Ending(change: PreparedChange, recorded: Status, now: int): seq<Event> {
    [StartHeld(1, now), StartHeld(2, now), Classify(2, recorded)] + Reads(1, now, 4) + [Call(1)]
  }

  /**
   * With two executors of one mandate request a recorded FAILED need not stay true. From the empty database, with the
   * account at the source value: the second executor finds the execution in flight, reads the source value back and records
   * FAILED; the first then makes its call, and the account holds the target.
   */
  lemma {:induction false} SecondExecutorMayRecordTooEarly(change: PreparedChange, id: string, terms: MandateTerms, now: int)
    requires Covers(terms, change, now) && change.source != change.target
    ensures var recorded := Classified(change, change.source);
            var last := Run(EMPTY_WORLD, Opening(change, id, terms, now) + Ending(change, recorded, now));
            && recorded == Failed && StatusOf(last.ledger, KeyOf(change)) == Some(Failed)
            && last.log == [Transport(change, ByMandate(id))]
            && !Truthful(Desk(last, Delivered(change, change.source, true)), change)
  {
    hide Covers, Run, Next, KeyOf, MandateSend, Opening, Ending;
    var held := TwoHold(change, id, terms, now);
    RunConcat(EMPTY_WORLD, Opening(change, id, terms, now), Ending(change, Failed, now));
    Overtaken(held, change, id, now);
  }

  lemma TwoHold(change: PreparedChange, id: string, terms: MandateTerms, now: int) returns (held: World)
    requires Covers(terms, change, now)
    ensures held == Run(EMPTY_WORLD, Opening(change, id, terms, now))
    ensures 1 in held.executors && held.executors[1] == Holding(change, id)
    ensures 2 in held.executors && held.executors[2] == Holding(change, id)
    ensures MandateSend(held.ledger, held.signals, change, id, now).1.Moved? && !Signalled(held.signals, change.scope)
    ensures held.log == []
  {
    hide KeyOf, BindingProblem, Exposure, StepPercent, KillScopes;
    var mandate := Mandate(terms, Active);
    var ready := EMPTY_WORLD.(plans := map[change.proposal := change], ledger := EMPTY_LEDGER.(mandates := map[id := mandate]));
    Ready(change, id, terms, now);
    var key := KeyOf(change);
    var first := FirstHolds(ready, change, id, terms, now);
    held := SecondHolds(first, change, id, terms, now);
    var a, b := Hold(1, change.proposal, id, now), Hold(2, change.proposal, id, now);
    assert Opening(change, id, terms, now) == [AddPlan(change), AddMandate(id, terms), StartMandate(id, now)] + [a, b];
    RunConcat(EMPTY_WORLD, [AddPlan(change), AddMandate(id, terms), StartMandate(id, now)], [a, b]);
    RunTwo(ready, a, b);
    hide Run;
  }

  lemma {:induction false} RunTwo(w: World, a: Event, b: Event)
    ensures Run(w, [a, b]) == Next(Next(w, a), b)
  {
    hide Next;
    assert [a, b][1..] == [b] && [b][1..] == [];
    assert Run(w, [a, b]) == Run(Next(w, a), [b]);
  }

  lemma {:induction false} Ready(change: PreparedChange, id: string, terms: MandateTerms, now: int)
    requires SoundTerms(terms) && now < terms.expiry
    ensures Run(EMPTY_WORLD, [AddPlan(change), AddMandate(id, terms), StartMandate(id, now)])
         == EMPTY_WORLD.(plans := map[change.proposal := change],
                         ledger := EMPTY_LEDGER.(mandates := map[id := Mandate(terms, Active)]))
  {
    hide Next;
    var planned := EMPTY_WORLD.(plans := map[change.proposal := change]);
    var issued := planned.(ledger := EMPTY_LEDGER.(mandates := map[id := Mandate(terms, Issued)]));
    PlanNext(change);
    OutsideNext(planned, AddMandate(id, terms));
    OutsideNext(issued, StartMandate(id, now));
    assert Others(planned, AddMandate(id, terms)) == issued;
    RunTwo(planned, AddMandate(id, terms), StartMandate(id, now));
    assert [AddPlan(change), AddMandate(id, terms), StartMandate(id, now)][1..] == [AddMandate(id, terms), StartMandate(id, now)];
  }

  lemma PlanNext(change: PreparedChange)
    ensures Next(EMPTY_WORLD, AddPlan(change)) == EMPTY_WORLD.(plans := map[change.proposal := change])
  {
    hide DoStart, DoConsume, DoStartQuiet, DoBeginQuiet, DoReleaseQuiet, DoFinishQuiet, DoHold, DoFinishHeld, DoStartHeld, DoReadCheck,
         DoCall, DoRefuse, DoRelease, DoBlock, DoClassify;
  }

  lemma HoldNext(w: World, ex: nat, proposal: string, mandate: string, now: int)
    ensures Next(w, Hold(ex, proposal, mandate, now)) == DoHold(w, ex, proposal, mandate, now)
  {
    hide DoHold;
  }

  lemma FirstHolds(w: World, change: PreparedChange, id: string, terms: MandateTerms, now: int) returns (later: World)
    requires Covers(terms, change, now)
    requires w == EMPTY_WORLD.(plans := map[change.proposal := change],
                               ledger := EMPTY_LEDGER.(mandates := map[id := Mandate(terms, Active)]))
    ensures later == Next(w, Hold(1, change.proposal, id, now))
    ensures later.executors == map[1 := Holding(change, id)] && later.log == [] && later.plans == w.plans && later.signals == {}
    ensures later.ledger.executions == map[KeyOf(change) := Execution(change, Reserved)]
    ensures later.ledger.mandates == w.ledger.mandates && later.ledger.switches == map[]
    ensures ConsumedBy(later.ledger, KeyOf(change), id)
  {
    hide KeyOf, BindingProblem, Exposure, StepPercent, KillScopes;
    HoldNext(w, 1, change.proposal, id, now);
    hide Next;
    later := DoHold(w, 1, change.proposal, id, now);
    assert QuotaProblem(w.ledger, id, change, Exposure(change).value, now).None?;
    assert MandateProblem(w.ledger, w.signals, id, now).None?;
    var consumption := Last(later.ledger.consumptions);
    assert consumption in later.ledger.consumptions;
  }

  lemma SecondHolds(w: World, change: PreparedChange, id: string, terms: MandateTerms, now: int) returns (later: World)
    requires Covers(terms, change, now)
    requires w.executors == map[1 := Holding(change, id)] && w.log == [] && w.plans == map[change.proposal := change] && w.signals == {}
    requires w.ledger.executions == map[KeyOf(change) := Execution(change, Reserved)] && ConsumedBy(w.ledger, KeyOf(change), id)
    requires w.ledger.mandates == map[id := Mandate(terms, Active)] && w.ledger.switches == map[]
    ensures later == Next(w, Hold(2, change.proposal, id, now))
    ensures 1 in later.executors && later.executors[1] == Holding(change, id)
    ensures 2 in later.executors && later.executors[2] == Holding(change, id)
    ensures MandateSend(later.ledger, later.signals, change, id, now).1.Moved? && !Signalled(later.signals, change.scope)
    ensures later.log == []
  {
    hide KeyOf, BindingProblem, Exposure, StepPercent, KillScopes, ConsumedBy;
    HoldNext(w, 2, change.proposal, id, now);
    hide Next;
    later := DoHold(w, 2, change.proposal, id, now);
    assert MandateProblem(w.ledger, w.signals, id, now).None?;
  }

  /** From two executors holding the same execution: the second records, then the first calls. */
  lemma {:induction false} Overtaken(w: World, change: PreparedChange, mandate: string, now: int)
    requires 1 in w.executors && w.executors[1] == Holding(change, mandate)
    requires 2 in w.executors && w.executors[2] == Holding(change, mandate)
    requires MandateSend(w.ledger, w.signals, change, mandate, now).1.Moved?
    requires !Signalled(w.signals, change.scope)
    ensures var e := Run(w, Ending(change, Failed, now));
            && StatusOf(e.ledger, KeyOf(change)) == Some(Failed)
            && e.log == w.log + [Transport(change, ByMandate(mandate))]
  {
    hide Next, KeyOf, Signalled, SwitchOn, BindingProblem, ConsumedBy, MandateSend;
    FirstStarts(w, change, mandate, now);
    var a := Next(w, StartHeld(1, now));
    SecondFinds(a, change, mandate, now);
    var b := Next(a, StartHeld(2, now));
    SecondRecords(b, change, mandate);
    var c := Next(b, Classify(2, Failed));
    FirstCalls(c, change, mandate, now);
    var last := Reads(1, now, 4) + [Call(1)];
    assert Ending(change, Failed, now) == [StartHeld(1, now), StartHeld(2, now)] + [Classify(2, Failed)] + last;
    RunConcat(w, [StartHeld(1, now), StartHeld(2, now)] + [Classify(2, Failed)], last);
    RunThen(w, [StartHeld(1, now), StartHeld(2, now)], Classify(2, Failed));
    RunTwo(w, StartHeld(1, now), StartHeld(2, now));
    hide Run;
  }

  lemma FirstStarts(w: World, change: PreparedChange, mandate: string, now: int)
    requires 1 in w.executors && w.executors[1] == Holding(change, mandate)
    requires MandateSend(w.ledger, w.signals, change, mandate, now).1.Moved?
    ensures var a := Next(w, StartHeld(1, now));
            && a == World(Marked(w.ledger, KeyOf(change), InFlight), w.signals, w.plans,
                          w.executors[1 := Cleared(change, ByMandate(mandate))], w.log)
            && StatusOf(a.ledger, KeyOf(change)) == Some(InFlight) && !SwitchOn(a.ledger.switches, change.scope)
            && MandateProblem(a.ledger, a.signals, mandate, now).None?
            && BindingProblem(a.ledger.mandates[mandate].terms, change).None?
  {
    hide KeyOf, Signalled, SwitchOn, BindingProblem, ConsumedBy, DoStart, DoConsume, DoStartQuiet, DoBeginQuiet, DoReleaseQuiet,
         DoFinishQuiet, DoHold, DoFinishHeld, DoReadCheck, DoCall, DoRefuse, DoRelease, DoBlock, DoClassify, Others;
  }

  lemma SecondFinds(w: World, change: PreparedChange, mandate: string, now: int)
    requires 2 in w.executors && w.executors[2] == Holding(change, mandate)
    requires MandateProblem(w.ledger, w.signals, mandate, now).None?
    requires BindingProblem(w.ledger.mandates[mandate].terms, change).None?
    requires StatusOf(w.ledger, KeyOf(change)) == Some(InFlight)
    ensures Next(w, StartHeld(2, now)) == w.(executors := w.executors[2 := Sent(change)])
  {
    hide KeyOf, Signalled, SwitchOn, BindingProblem, ConsumedBy, DoStart, DoConsume, DoStartQuiet, DoBeginQuiet, DoReleaseQuiet,
         DoFinishQuiet, DoHold, DoFinishHeld, DoReadCheck, DoCall, DoRefuse, DoRelease, DoBlock, DoClassify, Others;
  }

  lemma SecondRecords(w: World, change: PreparedChange, mandate: string)
    requires 2 in w.executors && w.executors[2] == Sent(change) && StatusOf(w.ledger, KeyOf(change)) == Some(InFlight)
    ensures Next(w, Classify(2, Failed))
         == w.(ledger := Marked(w.ledger, KeyOf(change), Failed), executors := w.executors - {2})
  {
    hide KeyOf, DoStart, DoConsume, DoStartQuiet, DoBeginQuiet, DoReleaseQuiet, DoStartHeld,
         DoFinishQuiet, DoHold, DoFinishHeld, DoReadCheck, DoCall, DoRefuse, DoRelease, DoBlock, Others;
  }

  lemma {:induction false} FirstCalls(w: World, change: PreparedChange, mandate: string, now: int)
    requires 1 in w.executors && w.executors[1] == Cleared(change, ByMandate(mandate))
    requires MandateProblem(w.ledger, w.signals, mandate, now).None? && !Stopped(w.ledger, w.signals, change.scope)
    ensures var e := Run(w, Reads(1, now, 4) + [Call(1)]);
            e.ledger.executions == w.ledger.executions && e.log == w.log + [Transport(change, ByMandate(mandate))]
  {
    hide KeyOf, SwitchOn, Signalled, Run, Reads;
    RestCalls(w, 1, now);
    assert Rest(w.executors[1], 1, now) == Reads(1, now, 4) + [Call(1)];
  }

  /** Such changes and mandates exist: a budget of 100 raised by ten percent under a mandate that allows it. */
  lemma OvertakingHappens()
    ensures exists change, terms :: Covers(terms, change, 0) && change.source != change.target
  {
    var scope := Scope("o", "c", "a", "k");
    var change := PreparedChange("p", "h", scope, IncreaseWeeklyBudget, Number(100), Number(110),
                                 StepDiff(IncreaseWeeklyBudget, 10), "f", "v");
    var terms := MandateTerms("o", "c", "a", {"k"}, {IncreaseWeeklyBudget}, {}, "v", 1, 1, 1, 10, 10, 1, 0);
    assert RoundHalfUp(Abs(100 - 110), 1_000_000) == 0;
    assert Covers(terms, change, 0);
  }
}
