/** At most one transport call per execution, per approval and per proposal, under every interleaving. */
module DispatchSafety {
  import opened Basics
  import opened Commands
  import opened ExecutionLedger
  import opened Dispatch

  // ---------- the ledger's own order ----------

  /** Every status change raises the rank, so a row changes at most three times. */
  function Rank(status: Status): nat {
    match status
    case Reserved => 0
    case InFlight => 1
    case Blocked => 2
    case Failed => 2
    case Applied => 3
    case NoChange => 3
    case UnknownResult => 3
    case AlreadyProcessed => 3
  }

  predicate Below(before: Execution, after: Execution) {
    after.change == before.change && (after == before || Rank(before.status) < Rank(after.status))
  }

  /** At most one execution is reserved or in flight. */
  ghost predicate OneActive(l: Ledger) {
    forall j, k :: j in l.executions && k in l.executions && IsActive(l.executions[j].status) && IsActive(l.executions[k].status)
      ==> j == k
  }

  /** What one transaction may do to the executions. */
  ghost predicate Advances(l: Ledger, later: Ledger) {
    && (forall k :: k in l.executions ==> k in later.executions && Below(l.executions[k], later.executions[k]))
    && (AnyUnknown(l) ==> later.executions.Keys == l.executions.Keys)
    && (OneActive(l) ==> OneActive(later))
  }

  lemma Unmoved(l: Ledger, later: Ledger)
    requires later.executions == l.executions
    ensures Advances(l, later)
  {
  }

  lemma InsertAdvances(l: Ledger, later: Ledger, change: PreparedChange, status: Status)
    requires KeyOf(change) !in l.executions && !AnyUnknown(l) && !AnyActive(l) && IsActive(status)
    requires later.executions == l.executions[KeyOf(change) := Execution(change, status)]
    ensures Advances(l, later)
  {
  }

  lemma RaiseAdvances(l: Ledger, later: Ledger, key: ExecutionKey, status: Status)
    requires key in l.executions && Rank(l.executions[key].status) < Rank(status)
    requires IsActive(status) ==> IsActive(l.executions[key].status)
    requires later.executions == l.executions[key := l.executions[key].(status := status)]
    ensures Advances(l, later)
  {
  }

  lemma FinishAdvances(l: Ledger, key: ExecutionKey, status: Status)
    requires IsFinal(status)
    ensures Advances(l, Finish(l, key, status).0)
  {
    if key in l.executions && IsActive(l.executions[key].status) {
      RaiseAdvances(l, Finish(l, key, status).0, key, status);
    }
  }

  lemma SendAdvances(l: Ledger, signals: set<Signal>, change: PreparedChange, id: string, now: int)
    ensures Advances(l, SendOnce(l, signals, change, id, now).0)
  {
    hide Stopped, Applicable;
    var r := SendOnce(l, signals, change, id, now);
    if r.1.Moved? {
      InsertAdvances(l, r.0, change, InFlight);
    }
  }

  lemma ReserveAdvances(l: Ledger, change: PreparedChange)
    ensures Advances(l, ReserveExecution(l, change).0)
  {
    var r := ReserveExecution(l, change);
    if r.1.Moved? {
      InsertAdvances(l, r.0, change, Reserved);
    }
  }

  lemma BeginAdvances(l: Ledger, change: PreparedChange, id: string, now: int)
    ensures Advances(l, BeginExecution(l, change, id, now).0)
  {
    hide Applicable;
    var r := BeginExecution(l, change, id, now);
    if r.1.Moved? {
      RaiseAdvances(l, r.0, KeyOf(change), InFlight);
    }
  }

  lemma MandateReserveAdvances(l: Ledger, signals: set<Signal>, change: PreparedChange, id: string, now: int)
    ensures Advances(l, MandateReserve(l, signals, change, id, now).0)
  {
    hide QuotaProblem, MandateProblem, BindingProblem, Exposure, SwitchOn;
    var r := MandateReserve(l, signals, change, id, now);
    if r.1.Moved? {
      InsertAdvances(l, r.0, change, Reserved);
    }
  }

  lemma MandateSendAdvances(l: Ledger, signals: set<Signal>, change: PreparedChange, id: string, now: int)
    ensures Advances(l, MandateSend(l, signals, change, id, now).0)
  {
    hide MandateProblem, BindingProblem, SwitchOn, ConsumedBy;
    var r := MandateSend(l, signals, change, id, now);
    if r.1.Moved? {
      RaiseAdvances(l, r.0, KeyOf(change), InFlight);
    }
  }

  lemma RecheckAdvances(l: Ledger, change: PreparedChange, id: string, status: Status, now: int)
    requires status == Applied || status == UnknownResult
    ensures Advances(l, RecordRecheck(l, change, id, status, now).0)
  {
    hide ConsumedBy;
    var r := RecordRecheck(l, change, id, status, now);
    if r.1.Moved? {
      RaiseAdvances(l, r.0, KeyOf(change), status);
    }
  }

  /** Every event moves the ledger forward only. */
  lemma StepAdvances(w: World, event: Event)
    ensures Advances(w.ledger, Next(w, event).ledger)
  {
    hide Advances, SendOnce, ConsumeRows, ReserveExecution, BeginExecution, MandateReserve, MandateSend, RecordRecheck, Finish,
         ReadPasses, Grant, RevokeApproval, Issue, Activate, RevokeMandate, SetSwitch, ReleaseReservation;
    var l := w.ledger;
    Unmoved(l, l);
    match event
    case Start(ex, proposal, approval, now) =>
      if proposal in w.plans { SendAdvances(l, w.signals, w.plans[proposal], approval, now); }
    case Consume(ex, now) =>
      if ex in w.executors && w.executors[ex].Checked? && w.executors[ex].path.ByApproval? {
        ConsumeUnmoved(l, w.executors[ex].change, w.executors[ex].path.approval, now);
      }
    case StartQuiet(ex, proposal) => if proposal in w.plans { ReserveAdvances(l, w.plans[proposal]); }
    case BeginQuiet(ex, approval, now) =>
      if ex in w.executors && w.executors[ex].Quiet? { BeginAdvances(l, w.executors[ex].change, approval, now); }
    case ReleaseQuiet(ex) =>
      if ex in w.executors && w.executors[ex].Begun? { ReleaseUnmoved(l, w.executors[ex].approval, KeyOf(w.executors[ex].change)); }
    case FinishQuiet(ex) => if ex in w.executors { FinishAdvances(l, KeyOf(w.executors[ex].change), NoChange); }
    case Hold(ex, proposal, mandate, now) =>
      if proposal in w.plans { MandateReserveAdvances(l, w.signals, w.plans[proposal], mandate, now); }
    case FinishHeld(ex) => if ex in w.executors { FinishAdvances(l, KeyOf(w.executors[ex].change), NoChange); }
    case StartHeld(ex, now) =>
      if ex in w.executors && w.executors[ex].Holding? {
        MandateSendAdvances(l, w.signals, w.executors[ex].change, w.executors[ex].mandate, now);
      }
    case Release(ex) =>
      if ex in w.executors && w.executors[ex].Releasing? { ReleaseUnmoved(l, w.executors[ex].approval, KeyOf(w.executors[ex].change)); }
    case Block(ex) => if ex in w.executors { FinishAdvances(l, KeyOf(w.executors[ex].change), Blocked); }
    case Classify(ex, status) =>
      if ex in w.executors && IsReadback(status) { FinishAdvances(l, KeyOf(w.executors[ex].change), status); }
    case Reconcile(key, status) => if IsReadback(status) { FinishAdvances(l, key, status); }
    case RecordReadback(proposal, mandate, status, now) =>
      if proposal in w.plans && (status == Applied || status == UnknownResult) {
        RecheckAdvances(l, w.plans[proposal], mandate, status, now);
      }
    case _ => OperatorUnmoved(w, event);
  }

  lemma ConsumeUnmoved(l: Ledger, change: PreparedChange, id: string, now: int)
    ensures Advances(l, ConsumeRows(l, change, id, now).0)
  {
    Unmoved(l, ConsumeRows(l, change, id, now).0);
  }

  lemma ReleaseUnmoved(l: Ledger, id: string, key: ExecutionKey)
    ensures Advances(l, ReleaseReservation(l, id, key))
  {
    Unmoved(l, ReleaseReservation(l, id, key));
  }

  predicate IsOperator(event: Event) {
    event.ReadCheck? || event.Call? || event.Refuse? || event.Reject? || event.Crash? || event.AddPlan? || event.AddApproval? || event.DropApproval?
    || event.AddMandate? || event.StartMandate? || event.SignalRevocation? || event.RevokeRow? || event.SignalKill?
    || event.SwitchRow? || event.ClearKill?
  }

  lemma OperatorUnmoved(w: World, event: Event)
    requires IsOperator(event)
    ensures Advances(w.ledger, Next(w, event).ledger)
  {
    hide Advances, Next;
    if event.ReadCheck? || event.Call? || event.Refuse? || event.Reject? || event.Crash? {
      BystanderUnmoved(w, event);
    } else {
      AuthorityUnmoved(w, event);
    }
  }

  lemma BystanderUnmoved(w: World, event: Event)
    requires event.ReadCheck? || event.Call? || event.Refuse? || event.Reject? || event.Crash?
    ensures Advances(w.ledger, Next(w, event).ledger)
  {
    hide ReadPasses;
    Unmoved(w.ledger, Next(w, event).ledger);
  }

  lemma AuthorityUnmoved(w: World, event: Event)
    requires IsOperator(event) && !event.ReadCheck? && !event.Call? && !event.Refuse? && !event.Reject? && !event.Crash?
    ensures Advances(w.ledger, Next(w, event).ledger)
  {
    assert Next(w, event) == Others(w, event);
    hide Advances, Next;
    if event.AddApproval? || event.DropApproval? {
      ApprovalsUnmoved(w, event);
    } else {
      MandatesUnmoved(w, event);
    }
    Unmoved(w.ledger, Next(w, event).ledger);
  }

  lemma ApprovalsUnmoved(w: World, event: Event)
    requires event.AddApproval? || event.DropApproval?
    ensures Others(w, event).ledger.executions == w.ledger.executions
  {
    hide IsBlank, Finish, RecordRecheck;
  }

  lemma MandatesUnmoved(w: World, event: Event)
    requires event.AddPlan? || event.AddMandate? || event.StartMandate? || event.SignalRevocation? || event.RevokeRow?
             || event.SignalKill? || event.SwitchRow? || event.ClearKill?
    ensures Others(w, event).ledger.executions == w.ledger.executions
  {
    hide IsBlank, Finish, RecordRecheck, Grant, RevokeApproval;
  }

  // ---------- the ledger over whole runs ----------

  /** How often the status of one execution changes during a run. */
  function StatusChanges(w: World, events: seq<Event>, key: ExecutionKey): nat
    decreases |events|
  {
    if events == [] then 0
    else
      var later := Next(w, events[0]);
      var changed := key in w.ledger.executions && key in later.ledger.executions
                     && later.ledger.executions[key].status != w.ledger.executions[key].status;
      StatusChanges(later, events[1..], key) + if changed then 1 else 0
  }

  lemma {:induction false} StatusChangesAtMostThrice(w: World, events: seq<Event>, key: ExecutionKey)
    ensures StatusChanges(w, events, key) + (if key in w.ledger.executions then Rank(w.ledger.executions[key].status) else 0) <= 3
    decreases |events|
  {
    hide Next;
    if events != [] {
      StepAdvances(w, events[0]);
      StatusChangesAtMostThrice(Next(w, events[0]), events[1..], key);
    }
  }

  /** Over any run: one active execution at a time, final statuses stay, and an unknown result blocks every insertion. */
  lemma {:induction false} RunAdvances(w: World, events: seq<Event>)
    ensures Advances(w.ledger, Run(w, events).ledger)
    decreases |events|
  {
    hide Next, Advances;
    if events == [] {
      Unmoved(w.ledger, w.ledger);
    } else {
      StepAdvances(w, events[0]);
      var later := Next(w, events[0]);
      RunAdvances(later, events[1..]);
      AdvancesTwice(w.ledger, later.ledger, Run(later, events[1..]).ledger);
    }
  }

  lemma AdvancesTwice(l: Ledger, middle: Ledger, later: Ledger)
    requires Advances(l, middle) && Advances(middle, later)
    ensures Advances(l, later)
  {
  }

  // ---------- who may call ----------

  /** On the way to its transport call: the execution was moved in flight by this executor. */
  predicate InTransit(position: Position) {
    position.Cleared? || position.Checked? || position.Armed?
  }

  function CallsOf(log: seq<Entry>, key: ExecutionKey): nat {
    if log == [] then 0
    else CallsOf(log[..|log| - 1], key) + if Last(log).Transport? && KeyOf(Last(log).change) == key then 1 else 0
  }

  predicate Started(l: Ledger, key: ExecutionKey) {
    key in l.executions && l.executions[key].status != Reserved
  }

  ghost predicate PlansOk(w: World) {
    && (forall p :: p in w.plans ==> w.plans[p].proposal == p)
    && (forall ex :: ex in w.executors ==>
          w.executors[ex].change.proposal in w.plans && w.executors[ex].change == w.plans[w.executors[ex].change.proposal])
    && (forall i :: 0 <= i < |w.log| && w.log[i].Transport? ==>
          w.log[i].change.proposal in w.plans && w.log[i].change == w.plans[w.log[i].change.proposal])
  }

  /** Executors in transit hold different started executions that were not called yet; nothing was called twice. */
  ghost predicate CallsOk(w: World) {
    && (forall ex :: ex in w.executors && InTransit(w.executors[ex]) ==>
          Started(w.ledger, KeyOf(w.executors[ex].change)) && CallsOf(w.log, KeyOf(w.executors[ex].change)) == 0)
    && (forall ex, other ::
          (ex in w.executors && other in w.executors && InTransit(w.executors[ex]) && InTransit(w.executors[other])
           && KeyOf(w.executors[ex].change) == KeyOf(w.executors[other].change)) ==> ex == other)
    && (forall key :: CallsOf(w.log, key) <= 1 && (CallsOf(w.log, key) == 1 ==> Started(w.ledger, key)))
  }

  predicate UsedBy(l: Ledger, id: string, key: ExecutionKey) {
    id in l.approvals && l.approvals[id].used == Some(key)
  }

  /** The commit that authorized a call: approval reserved for the key, unused, unrevoked, unexpired; no switch on. */
  predicate Authorizes(entry: Entry, key: ExecutionKey, id: string) {
    && entry.Consumption? && entry.key == key && entry.approval == id
    && entry.row.reserved == Some(key) && entry.row.used.None? && !entry.row.revoked && entry.at < entry.row.expires
    && !SwitchOn(entry.switches, entry.scope)
  }

  ghost predicate Authorized(log: seq<Entry>, key: ExecutionKey, id: string) {
    exists i :: 0 <= i < |log| && Authorizes(log[i], key, id)
  }

  /** Every call of the approval path, made or about to be made, follows its authorizing commit. */
  ghost predicate AuthorityOk(w: World) {
    && (forall ex :: ex in w.executors && w.executors[ex].Armed? && w.executors[ex].path.ByApproval? ==>
          var key, id := KeyOf(w.executors[ex].change), w.executors[ex].path.approval;
          UsedBy(w.ledger, id, key) && Authorized(w.log, key, id))
    && (forall i :: 0 <= i < |w.log| && w.log[i].Transport? && w.log[i].path.ByApproval? ==>
          var key, id := KeyOf(w.log[i].change), w.log[i].path.approval;
          UsedBy(w.ledger, id, key) && Authorized(w.log[..i], key, id))
  }

  ghost predicate WorldOk(w: World) {
    PlansOk(w) && CallsOk(w) && AuthorityOk(w)
  }

  // ---------- frames ----------

  lemma StartedStays(l: Ledger, later: Ledger, key: ExecutionKey)
    requires Advances(l, later) && Started(l, key)
    ensures Started(later, key)
  {
  }

  ghost predicate UsedStays(l: Ledger, later: Ledger) {
    forall id, key :: UsedBy(l, id, key) ==> UsedBy(later, id, key)
  }

  /** Executors that did not move into transit, an unchanged log, and a ledger that only moves forward. */
  ghost predicate NoNewTransit(w: World, later: World) {
    && later.log == w.log && later.plans == w.plans
    && Advances(w.ledger, later.ledger) && UsedStays(w.ledger, later.ledger)
    && (forall ex :: ex in later.executors && InTransit(later.executors[ex]) ==>
          ex in w.executors && later.executors[ex] == w.executors[ex])
    && (forall ex :: ex in later.executors ==>
          && later.executors[ex].change.proposal in w.plans
          && later.executors[ex].change == w.plans[later.executors[ex].change.proposal])
  }

  lemma QuietKeeps(w: World, later: World)
    requires WorldOk(w) && NoNewTransit(w, later)
    ensures WorldOk(later)
  {
    hide Advances, Started, CallsOf, UsedBy, Authorized;
    forall key | Started(w.ledger, key) ensures Started(later.ledger, key) {
      StartedStays(w.ledger, later.ledger, key);
    }
  }

  /** An executor enters transit by starting an execution that nobody had started. */
  lemma ClearKeeps(w: World, later: World, ex: nat, change: PreparedChange, path: Path)
    requires WorldOk(w) && change.proposal in w.plans && change == w.plans[change.proposal]
    requires later.executors == w.executors[ex := Cleared(change, path)] && later.log == w.log && later.plans == w.plans
    requires Advances(w.ledger, later.ledger) && UsedStays(w.ledger, later.ledger)
    requires !Started(w.ledger, KeyOf(change)) && Started(later.ledger, KeyOf(change))
    ensures WorldOk(later)
  {
    hide Advances, Started, CallsOf, UsedBy, Authorized;
    forall key | Started(w.ledger, key) ensures Started(later.ledger, key) {
      StartedStays(w.ledger, later.ledger, key);
    }
  }

  // ---------- one event ----------

  lemma StartKeeps(w: World, ex: nat, proposal: string, approval: string, now: int)
    requires WorldOk(w)
    ensures WorldOk(DoStart(w, ex, proposal, approval, now))
  {
    hide Advances, CallsOk, AuthorityOk;
    if ex !in w.executors && proposal in w.plans {
      var change := w.plans[proposal];
      var sent := SendOnce(w.ledger, w.signals, change, approval, now);
      if sent.1.Moved? {
        SendAdvances(w.ledger, w.signals, change, approval, now);
        SendStarts(w.ledger, w.signals, change, approval, now);
        ClearKeeps(w, DoStart(w, ex, proposal, approval, now), ex, change, ByApproval(approval));
      }
    }
  }

  lemma SendStarts(l: Ledger, signals: set<Signal>, change: PreparedChange, id: string, now: int)
    requires SendOnce(l, signals, change, id, now).1.Moved?
    ensures var later := SendOnce(l, signals, change, id, now).0;
            !Started(l, KeyOf(change)) && Started(later, KeyOf(change)) && UsedStays(l, later)
  {
    hide Stopped;
  }

  lemma StartHeldKeeps(w: World, ex: nat, now: int)
    requires WorldOk(w)
    ensures WorldOk(DoStartHeld(w, ex, now))
  {
    hide Advances, CallsOk, AuthorityOk, Started, UsedStays, MandateSend;
    if ex in w.executors && w.executors[ex].Holding? {
      var change, id := w.executors[ex].change, w.executors[ex].mandate;
      MandateSendAdvances(w.ledger, w.signals, change, id, now);
      MandateSendStarts(w.ledger, w.signals, change, id, now);
      Unmoved(w.ledger, w.ledger);
      if MandateSend(w.ledger, w.signals, change, id, now).1.Moved? {
        ClearKeeps(w, DoStartHeld(w, ex, now), ex, change, ByMandate(id));
      } else {
        UsedStaysHere(w.ledger, w.ledger);
        QuietKeeps(w, DoStartHeld(w, ex, now));
      }
    }
  }

  lemma UsedStaysHere(l: Ledger, later: Ledger)
    requires later.approvals == l.approvals
    ensures UsedStays(l, later)
  {
  }

  lemma MandateSendStarts(l: Ledger, signals: set<Signal>, change: PreparedChange, id: string, now: int)
    ensures var r := MandateSend(l, signals, change, id, now);
            && UsedStays(l, r.0)
            && (r.1.Moved? ==> !Started(l, KeyOf(change)) && Started(r.0, KeyOf(change)))
  {
    hide MandateProblem, BindingProblem, SwitchOn, ConsumedBy;
  }

  /** Consuming arms an executor that has read the sidecar, and writes down the row and switches it saw. */
  lemma ConsumeKeeps(w: World, ex: nat, now: int)
    requires WorldOk(w)
    ensures WorldOk(DoConsume(w, ex, now))
  {
    hide Advances, Started, CallsOf, AuthorityOk;
    if ex in w.executors && w.executors[ex].Checked? && w.executors[ex].path.ByApproval? {
      var change, id := w.executors[ex].change, w.executors[ex].path.approval;
      var consumed := ConsumeRows(w.ledger, change, id, now);
      var later := DoConsume(w, ex, now);
      if consumed.1.Moved? {
        StayKeepsCalls(w, later, ex, Armed(change, ByApproval(id)));
        ConsumeAuthorizes(w, ex, now);
      } else {
        Unmoved(w.ledger, w.ledger);
        UsedStaysHere(w.ledger, w.ledger);
        QuietKeeps(w, later);
      }
    }
  }

  lemma {:induction false} CallsOfOther(log: seq<Entry>, entry: Entry, key: ExecutionKey)
    requires !entry.Transport? || KeyOf(entry.change) != key
    ensures CallsOf(log + [entry], key) == CallsOf(log, key)
  {
    assert (log + [entry])[..|log|] == log;
  }

  /** An executor in transit stays in transit for the same execution, with nothing more called. */
  lemma StayKeepsCalls(w: World, later: World, ex: nat, position: Position)
    requires PlansOk(w) && CallsOk(w)
    requires ex in w.executors && InTransit(w.executors[ex]) && InTransit(position) && position.change == w.executors[ex].change
    requires later.executors == w.executors[ex := position] && later.plans == w.plans
    requires later.ledger.executions == w.ledger.executions
    requires later.log == w.log
             || exists entry: Entry :: !entry.Transport? && later.log == w.log + [entry]
    ensures PlansOk(later) && CallsOk(later)
  {
    hide CallsOf;
    forall key ensures CallsOf(later.log, key) == CallsOf(w.log, key) {
      if later.log != w.log {
        var entry: Entry :| !entry.Transport? && later.log == w.log + [entry];
        CallsOfOther(w.log, entry, key);
      }
    }
  }

  lemma ConsumeAuthorizes(w: World, ex: nat, now: int)
    requires AuthorityOk(w) && ex in w.executors && w.executors[ex].Checked? && w.executors[ex].path.ByApproval?
    requires ConsumeRows(w.ledger, w.executors[ex].change, w.executors[ex].path.approval, now).1.Moved?
    ensures AuthorityOk(DoConsume(w, ex, now))
  {
    hide SwitchOn, Signalled;
    var change, id := w.executors[ex].change, w.executors[ex].path.approval;
    var later := DoConsume(w, ex, now);
    assert Authorizes(Last(later.log), KeyOf(change), id);
    forall key, other | Authorized(w.log, key, other) ensures Authorized(later.log, key, other) {
      AuthorizedStays(w.log, Last(later.log), key, other);
    }
    forall other, key | UsedBy(w.ledger, other, key) ensures UsedBy(later.ledger, other, key) {
    }
    hide Authorized, UsedBy;
    assert forall i :: 0 <= i < |w.log| ==> later.log[i] == w.log[i] && later.log[..i] == w.log[..i];
  }

  lemma AuthorizedStays(log: seq<Entry>, entry: Entry, key: ExecutionKey, id: string)
    requires Authorized(log, key, id)
    ensures Authorized(log + [entry], key, id)
  {
    var i :| 0 <= i < |log| && Authorizes(log[i], key, id);
    assert (log + [entry])[i] == log[i];
  }

  /** A read of the last check keeps its executor on the way, or turns it back. */
  lemma ReadKeeps(w: World, ex: nat, now: int)
    requires WorldOk(w)
    ensures WorldOk(DoReadCheck(w, ex, now))
  {
    hide CallsOf, ReadPasses, Authorized, UsedBy, Started, Advances;
    if ex in w.executors && ReadsMade(w.executors[ex]).Some? {
      var change, path, made := w.executors[ex].change, w.executors[ex].path, ReadsMade(w.executors[ex]).value;
      if ReadPasses(w, change, path, made, now) {
        StayKeepsCalls(w, DoReadCheck(w, ex, now), ex, AfterRead(change, path, made));
      } else {
        Unmoved(w.ledger, w.ledger);
        UsedStaysHere(w.ledger, w.ledger);
        QuietKeeps(w, DoReadCheck(w, ex, now));
      }
    }
  }

  lemma {:induction false} CallsOfAppended(log: seq<Entry>, entry: Entry, key: ExecutionKey)
    ensures CallsOf(log + [entry], key) == CallsOf(log, key) + if entry.Transport? && KeyOf(entry.change) == key then 1 else 0
  {
    assert (log + [entry])[..|log|] == log;
  }

  /** The transport call itself: the executor leaves transit, and its execution was never called before. */
  lemma CallKeeps(w: World, ex: nat)
    requires WorldOk(w)
    ensures WorldOk(DoCall(w, ex))
  {
    if ex in w.executors && w.executors[ex].Armed? {
      CallKeepsCalls(w, ex);
      CallKeepsAuthority(w, ex);
    }
  }

  lemma CallKeepsCalls(w: World, ex: nat)
    requires PlansOk(w) && CallsOk(w) && ex in w.executors && w.executors[ex].Armed?
    ensures PlansOk(DoCall(w, ex)) && CallsOk(DoCall(w, ex))
  {
    hide CallsOf, Started;
    var later := DoCall(w, ex);
    var change := w.executors[ex].change;
    forall key ensures CallsOf(later.log, key) == CallsOf(w.log, key) + if KeyOf(change) == key then 1 else 0 {
      CallsOfAppended(w.log, Last(later.log), key);
    }
  }

  lemma CallKeepsAuthority(w: World, ex: nat)
    requires AuthorityOk(w) && ex in w.executors && w.executors[ex].Armed?
    ensures AuthorityOk(DoCall(w, ex))
  {
    hide UsedBy;
    var later := DoCall(w, ex);
    forall key, id | Authorized(w.log, key, id) ensures Authorized(later.log, key, id) {
      AuthorizedStays(w.log, Last(later.log), key, id);
    }
    hide Authorized;
    assert later.log[..|w.log|] == w.log;
    assert forall i :: 0 <= i < |w.log| ==> later.log[i] == w.log[i] && later.log[..i] == w.log[..i];
  }

  predicate IsQuiet(event: Event) {
    !event.Start? && !event.StartHeld? && !event.Consume? && !event.ReadCheck? && !event.Call?
  }

  /** Outside the transit of an executor, used approvals stay used. */
  lemma QuietUsed(w: World, event: Event)
    requires IsQuiet(event)
    ensures UsedStays(w.ledger, Next(w, event).ledger)
  {
    hide UsedStays, Next;
    match event
    case Hold(ex, proposal, mandate, now) =>
      HoldApprovals(w, ex, proposal, mandate, now);
      HoldUsed(w, event);
    case Block(_) => FinishUsed(w, event);
    case Classify(_, _) => FinishUsed(w, event);
    case FinishHeld(_) => FinishUsed(w, event);
    case FinishQuiet(_) => FinishUsed(w, event);
    case StartQuiet(_, _) => QuietPathUsed(w, event);
    case BeginQuiet(_, _, _) => QuietPathUsed(w, event);
    case ReleaseQuiet(_) => ReleaseUsed(w, event);
    case Release(_) => ReleaseUsed(w, event);
    case Refuse(_) => RefuseUsed(w, event);
    case Reject(_, _) => RefuseUsed(w, event);
    case Crash(_) => RefuseUsed(w, event);
    case Reconcile(_, _) => FinishUsed(w, event);
    case _ => OthersUsed(w, event);
  }

  lemma HoldUsed(w: World, event: Event)
    requires event.Hold?
    requires DoHold(w, event.ex, event.proposal, event.mandate, event.now).ledger.approvals == w.ledger.approvals
    ensures UsedStays(w.ledger, Next(w, event).ledger)
  {
    hide DoHold;
  }

  lemma FinishUsed(w: World, event: Event)
    requires event.Block? || event.Classify? || event.FinishHeld? || event.FinishQuiet? || event.Reconcile?
    ensures UsedStays(w.ledger, Next(w, event).ledger)
  {
  }

  lemma QuietPathUsed(w: World, event: Event)
    requires event.StartQuiet? || event.BeginQuiet?
    ensures UsedStays(w.ledger, Next(w, event).ledger)
  {
    hide AnyUnknown, AnyActive;
  }

  lemma ReleaseUsed(w: World, event: Event)
    requires event.ReleaseQuiet? || event.Release?
    ensures UsedStays(w.ledger, Next(w, event).ledger)
  {
  }

  lemma RefuseUsed(w: World, event: Event)
    requires event.Refuse? || event.Reject? || event.Crash?
    ensures UsedStays(w.ledger, Next(w, event).ledger)
  {
  }

  lemma OthersUsed(w: World, event: Event)
    requires IsOperator(event) || event.RecordReadback?
    requires !event.ReadCheck? && !event.Call? && !event.Refuse? && !event.Reject? && !event.Crash?
    ensures UsedStays(w.ledger, Next(w, event).ledger)
  {
    hide DoStart, DoConsume, DoStartQuiet, DoBeginQuiet, DoReleaseQuiet, DoFinishQuiet, DoHold, DoFinishHeld, DoStartHeld, DoRelease,
         DoReadCheck, DoCall, DoRefuse, DoReject, DoBlock, DoClassify, IsBlank, Finish, ConsumedBy;
  }

  lemma HoldApprovals(w: World, ex: nat, proposal: string, mandate: string, now: int)
    ensures DoHold(w, ex, proposal, mandate, now).ledger.approvals == w.ledger.approvals
  {
    hide AnyUnknown, AnyActive, QuotaProblem, MandateProblem, BindingProblem, SwitchOn, Exposure, StepPercent;
  }

  lemma QuietLog(w: World, event: Event)
    requires IsQuiet(event) && !event.AddPlan?
    ensures Next(w, event).log == w.log && Next(w, event).plans == w.plans
  {
    hide DoStart, DoStartHeld, DoConsume, DoReadCheck, DoCall, SendOnce, ReserveExecution, BeginExecution, MandateReserve, Finish,
         RecordRecheck, Grant, RevokeApproval, Issue, Activate, RevokeMandate, SetSwitch, ReleaseReservation;
  }

  /** Nobody enters transit, and everybody keeps to a stored plan. */
  ghost predicate QuietMoves(w: World, later: World) {
    && (forall ex :: ex in later.executors && InTransit(later.executors[ex]) ==>
          ex in w.executors && later.executors[ex] == w.executors[ex])
    && (forall ex :: ex in later.executors ==>
          && later.executors[ex].change.proposal in w.plans
          && later.executors[ex].change == w.plans[later.executors[ex].change.proposal])
  }

  lemma QuietExecutors(w: World, event: Event)
    requires PlansOk(w) && IsQuiet(event)
    ensures QuietMoves(w, Next(w, event))
  {
    hide DoStart, DoStartHeld, DoConsume, DoReadCheck, DoCall, DoBlock, DoRelease, DoClassify, DoRefuse, DoReject, DoHold, Others,
         DoFinishHeld, DoStartQuiet, DoBeginQuiet, DoReleaseQuiet, DoFinishQuiet;
    match event
    case Block(ex) => AwayExecutors(w, event);
    case Release(ex) => AwayExecutors(w, event);
    case Classify(ex, status) => AwayExecutors(w, event);
    case Refuse(ex) => AwayExecutors(w, event);
    case Reject(ex, proposal) => HoldExecutors(w, event);
    case Hold(ex, proposal, mandate, now) => HoldExecutors(w, event);
    case FinishHeld(ex) => HoldExecutors(w, event);
    case StartQuiet(ex, proposal) => QuietPathExecutors(w, event);
    case BeginQuiet(ex, approval, now) => QuietPathExecutors(w, event);
    case ReleaseQuiet(ex) => QuietPathExecutors(w, event);
    case FinishQuiet(ex) => QuietPathExecutors(w, event);
    case Crash(ex) =>
    case _ => OthersExecutors(w, event);
  }

  lemma AwayExecutors(w: World, event: Event)
    requires PlansOk(w) && (event.Block? || event.Release? || event.Classify? || event.Refuse?)
    ensures QuietMoves(w, Next(w, event))
  {
    hide DoStart, DoStartHeld, DoConsume, DoReadCheck, DoCall, DoHold, Others, DoFinishHeld,
         DoStartQuiet, DoBeginQuiet, DoReleaseQuiet, DoFinishQuiet, Finish, ReleaseReservation;
  }

  lemma HoldExecutors(w: World, event: Event)
    requires PlansOk(w) && (event.Hold? || event.FinishHeld? || event.Reject?)
    ensures QuietMoves(w, Next(w, event))
  {
    if event.Hold? {
      HoldMoves(w, event.ex, event.proposal, event.mandate, event.now);
      hide DoHold, DoFinishHeld, DoReject, QuietMoves;
    }
    hide DoStart, DoStartHeld, DoConsume, DoReadCheck, DoCall, DoBlock, DoRelease, DoClassify, DoRefuse, Others,
         DoStartQuiet, DoBeginQuiet, DoReleaseQuiet, DoFinishQuiet, Finish, MandateReserve;
  }

  lemma HoldMoves(w: World, ex: nat, proposal: string, mandate: string, now: int)
    requires PlansOk(w)
    ensures QuietMoves(w, DoHold(w, ex, proposal, mandate, now))
  {
    hide MandateReserve;
  }

  lemma QuietPathExecutors(w: World, event: Event)
    requires PlansOk(w) && (event.StartQuiet? || event.BeginQuiet? || event.ReleaseQuiet? || event.FinishQuiet?)
    ensures QuietMoves(w, Next(w, event))
  {
    hide DoStart, DoStartHeld, DoConsume, DoReadCheck, DoCall, DoBlock, DoRelease, DoClassify, DoRefuse, DoHold, Others, DoFinishHeld,
         Finish, ReleaseReservation, ReserveExecution, BeginExecution;
  }

  predicate FromOutside(event: Event) {
    event.Reconcile? || event.RecordReadback? || event.AddPlan? || event.AddApproval? || event.DropApproval? || event.AddMandate?
    || event.StartMandate? || event.SignalRevocation? || event.RevokeRow? || event.SignalKill? || event.SwitchRow? || event.ClearKill?
  }

  lemma OthersExecutors(w: World, event: Event)
    requires PlansOk(w) && FromOutside(event)
    ensures QuietMoves(w, Next(w, event))
  {
    hide Next;
    OthersKeepExecutors(w, event);
  }

  lemma OthersKeepExecutors(w: World, event: Event)
    requires FromOutside(event)
    ensures Next(w, event).executors == w.executors
  {
    hide DoStart, DoStartHeld, DoConsume, DoReadCheck, DoCall, DoBlock, DoRelease, DoClassify, DoRefuse, DoHold, DoFinishHeld,
         DoStartQuiet, DoBeginQuiet, DoReleaseQuiet, DoFinishQuiet, Finish, RecordRecheck, Grant, RevokeApproval, Issue, Activate,
         RevokeMandate, SetSwitch;
  }

  lemma AddPlanKeeps(w: World, change: PreparedChange)
    requires WorldOk(w)
    ensures WorldOk(Next(w, AddPlan(change)))
  {
    hide CallsOf, Authorized, UsedBy, Started, DoStart, DoConsume, DoStartQuiet, DoBeginQuiet, DoReleaseQuiet, DoFinishQuiet, DoHold,
         DoFinishHeld, DoStartHeld, DoReadCheck, DoCall, DoRefuse, DoRelease, DoBlock, DoClassify;
  }

  lemma StepKeeps(w: World, event: Event)
    requires WorldOk(w)
    ensures WorldOk(Next(w, event))
  {
    hide WorldOk, Advances, DoStart, DoConsume, DoStartQuiet, DoBeginQuiet, DoReleaseQuiet, DoFinishQuiet, DoHold, DoFinishHeld,
         DoStartHeld, DoReadCheck, DoCall, DoRefuse, DoRelease, DoBlock, DoClassify, Others, UsedStays;
    if event.Start? {
      StartKeeps(w, event.ex, event.proposal, event.approval, event.now);
    } else if event.StartHeld? {
      StartHeldKeeps(w, event.ex, event.now);
    } else if event.Consume? {
      ConsumeKeeps(w, event.ex, event.now);
    } else if event.ReadCheck? {
      ReadKeeps(w, event.ex, event.now);
    } else if event.Call? {
      CallKeeps(w, event.ex);
    } else if event.AddPlan? {
      AddPlanKeeps(w, event.change);
    } else {
      QuietStepKeeps(w, event);
    }
  }

  lemma QuietStepKeeps(w: World, event: Event)
    requires WorldOk(w) && IsQuiet(event) && !event.AddPlan?
    ensures WorldOk(Next(w, event))
  {
    hide CallsOk, AuthorityOk, Advances, UsedStays, Next;
    StepAdvances(w, event);
    QuietUsed(w, event);
    QuietLog(w, event);
    QuietExecutors(w, event);
    QuietKeeps(w, Next(w, event));
  }

  lemma {:induction false} RunKeeps(w: World, events: seq<Event>)
    requires WorldOk(w)
    ensures WorldOk(Run(w, events))
    decreases |events|
  {
    hide WorldOk, Next;
    if events != [] {
      StepKeeps(w, events[0]);
      RunKeeps(Next(w, events[0]), events[1..]);
    }
  }

  // ---------- the theorems ----------

  /** The transport calls of a run, by approval and by proposal. */
  function CallsUnder(log: seq<Entry>, id: string): nat {
    if log == [] then 0
    else
      CallsUnder(log[..|log| - 1], id)
      + if Last(log).Transport? && Last(log).path == ByApproval(id) then 1 else 0
  }

  function CallsFor(log: seq<Entry>, proposal: string): nat {
    if log == [] then 0
    else
      CallsFor(log[..|log| - 1], proposal) + if Last(log).Transport? && Last(log).change.proposal == proposal then 1 else 0
  }

  /** Calls that all share one execution key are no more than the calls of that key. */
  lemma {:induction false} CallsUnderOneKey(log: seq<Entry>, id: string, key: ExecutionKey)
    requires forall i :: 0 <= i < |log| && log[i].Transport? && log[i].path == ByApproval(id) ==> KeyOf(log[i].change) == key
    ensures CallsUnder(log, id) <= CallsOf(log, key)
  {
    if log != [] {
      CallsUnderOneKey(log[..|log| - 1], id, key);
    }
  }

  lemma {:induction false} CallsForOneKey(log: seq<Entry>, proposal: string, key: ExecutionKey)
    requires forall i :: 0 <= i < |log| && log[i].Transport? && log[i].change.proposal == proposal ==> KeyOf(log[i].change) == key
    ensures CallsFor(log, proposal) <= CallsOf(log, key)
  {
    if log != [] {
      CallsForOneKey(log[..|log| - 1], proposal, key);
    }
  }

  lemma {:induction false} NoCallsUnder(log: seq<Entry>, id: string)
    requires forall i :: 0 <= i < |log| && log[i].Transport? ==> log[i].path != ByApproval(id)
    ensures CallsUnder(log, id) == 0
  {
    if log != [] {
      NoCallsUnder(log[..|log| - 1], id);
    }
  }

  lemma {:induction false} NoCallsFor(log: seq<Entry>, proposal: string)
    requires forall i :: 0 <= i < |log| && log[i].Transport? ==> log[i].change.proposal != proposal
    ensures CallsFor(log, proposal) == 0
  {
    if log != [] {
      NoCallsFor(log[..|log| - 1], proposal);
    }
  }

  lemma {:induction false} UnderAtMostOnce(w: World, id: string)
    requires WorldOk(w)
    ensures CallsUnder(w.log, id) <= 1
  {
    hide CallsOf;
    if i :| 0 <= i < |w.log| && w.log[i].Transport? && w.log[i].path == ByApproval(id) {
      CallsUnderOneKey(w.log, id, KeyOf(w.log[i].change));
    } else {
      NoCallsUnder(w.log, id);
    }
  }

  lemma {:induction false} ForAtMostOnce(w: World, proposal: string)
    requires WorldOk(w)
    ensures CallsFor(w.log, proposal) <= 1
  {
    hide CallsOf, AuthorityOk;
    if proposal in w.plans {
      CallsForOneKey(w.log, proposal, KeyOf(w.plans[proposal]));
    } else {
      NoCallsFor(w.log, proposal);
    }
  }

  /**
   * At most once: whatever executors of both paths, revokers, kill-switch operators and reconcilers do in whatever order,
   * each execution key, each approval and each proposal reaches the transport at most once.
   */
  lemma {:induction false} AtMostOnce(events: seq<Event>)
    ensures var log := Run(EMPTY_WORLD, events).log;
            && (forall key :: CallsOf(log, key) <= 1)
            && (forall id :: CallsUnder(log, id) <= 1)
            && (forall proposal :: CallsFor(log, proposal) <= 1)
  {
    hide Run, Next;
    RunKeeps(EMPTY_WORLD, events);
    var w := Run(EMPTY_WORLD, events);
    forall id ensures CallsUnder(w.log, id) <= 1 {
      UnderAtMostOnce(w, id);
    }
    forall proposal ensures CallsFor(w.log, proposal) <= 1 {
      ForAtMostOnce(w, proposal);
    }
  }

  /**
   * Every transport call of the approval path comes after a commit that saw the approval reserved for this very execution,
   * unused, unrevoked and unexpired, and no kill-switch row on for the change's scope.
   */
  lemma {:induction false} EveryCallIsAuthorized(events: seq<Event>, i: nat)
    requires i < |Run(EMPTY_WORLD, events).log|
    requires Run(EMPTY_WORLD, events).log[i].Transport? && Run(EMPTY_WORLD, events).log[i].path.ByApproval?
    ensures var log := Run(EMPTY_WORLD, events).log;
            exists j :: 0 <= j < i && Authorizes(log[j], KeyOf(log[i].change), log[i].path.approval)
  {
    hide Run, Next;
    RunKeeps(EMPTY_WORLD, events);
    var log := Run(EMPTY_WORLD, events).log;
    hide CallsOf, UsedBy, Authorizes;
    var j :| 0 <= j < i && Authorizes(log[..i][j], KeyOf(log[i].change), log[i].path.approval);
    assert log[..i][j] == log[j];
  }

  /** One execution at a time, and an unknown result blocks every later insertion, at every point of every run. */
  lemma {:induction false} LedgerShape(before: seq<Event>, after: seq<Event>)
    ensures var l := Run(EMPTY_WORLD, before).ledger;
            var later := Run(Run(EMPTY_WORLD, before), after).ledger;
            && OneActive(l)
            && (AnyUnknown(l) ==> later.executions.Keys == l.executions.Keys)
            && (forall k :: k in l.executions && Rank(l.executions[k].status) == 3 ==>
                  k in later.executions && later.executions[k] == l.executions[k])
            && (forall k :: StatusChanges(EMPTY_WORLD, before, k) <= 3)
  {
    hide Run, Next, StatusChanges;
    var w := Run(EMPTY_WORLD, before);
    RunAdvances(EMPTY_WORLD, before);
    RunAdvances(w, after);
    assert OneActive(EMPTY_LEDGER);
    forall k ensures StatusChanges(EMPTY_WORLD, before, k) <= 3 {
      StatusChangesAtMostThrice(EMPTY_WORLD, before, k);
    }
  }
}
