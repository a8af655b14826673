/** What an approval allows: exactly when each of its transactions is granted, and that every call is for the change it was given for. */
module ApprovalBinding {
  import opened Basics
  import opened Commands
  import opened ExecutionLedger
  import opened Dispatch
  import opened DispatchSafety
  import opened KillNames

  // ---------- when the transactions are granted ----------

  /** Two changes are one execution exactly when they agree on all of this. */
  lemma SameExecutionWhen(p: PreparedChange, q: PreparedChange)
    ensures KeyOf(p) == KeyOf(q)
       <==> && p.scope.organization == q.scope.organization && p.scope.connection == q.scope.connection
            && p.scope.campaign == q.scope.campaign && p.proposal == q.proposal && p.proposalHash == q.proposalHash
            && p.action == q.action && p.target == q.target && p.fingerprint == q.fingerprint && p.policy == q.policy
  {
  }

  /** No execution is reserved, in flight or of unknown outcome. */
  predicate AllSettled(l: Ledger) {
    forall k | k in l.executions :: l.executions[k].status !in {Reserved, InFlight, UnknownResult}
  }

  predicate SomeUnknown(l: Ledger) {
    exists k | k in l.executions :: l.executions[k].status == UnknownResult
  }

  /** An approval given for this very change that is neither used, revoked, reserved nor expired. */
  predicate ApprovedFor(l: Ledger, id: string, change: PreparedChange, now: int) {
    && id in l.approvals
    && var row := l.approvals[id];
    && row.binding == change && row.used == None && !row.revoked && row.reserved == None && now < row.expires
  }

  /** The ledger with the approval reserved for the change. */
  function Taking(l: Ledger, id: string, change: PreparedChange): map<string, Approval>
    requires id in l.approvals
  {
    l.approvals[id := l.approvals[id].(reserved := Some(KeyOf(change)))]
  }

  /**
   * `send_once` moves if and only if the execution is new, every other one is settled, none of the four kill switches is on in
   * either store, and the approval is for this change and free; then both rows are written, and otherwise none.
   */
  lemma SendsWhen(l: Ledger, signals: set<Signal>, change: PreparedChange, id: string, now: int)
    ensures var r := SendOnce(l, signals, change, id, now);
            && (r.1.Moved? <==>
                  && KeyOf(change) !in l.executions && AllSettled(l)
                  && !AnyRowOn(l.switches, change.scope) && !AnySignalOn(signals, change.scope)
                  && ApprovedFor(l, id, change, now))
            && (r.1.Moved? ==>
                  r.0 == l.(executions := l.executions[KeyOf(change) := Execution(change, InFlight)], approvals := Taking(l, id, change)))
            && (!r.1.Moved? ==> r.0 == l)
            && (r.1.Standing? <==> !SomeUnknown(l) && (KeyOf(change) in l.executions || !AllSettled(l)))
            && (r.1.Standing? ==>
                  if KeyOf(change) !in l.executions then r.1.status == Blocked
                  else if l.executions[KeyOf(change)].status in {Reserved, InFlight, Applied, NoChange} then r.1.status == AlreadyProcessed
                  else r.1.status == l.executions[KeyOf(change)].status)
  {
    RowsOnWhen(l.switches, change.scope);
    SignalsOnWhen(signals, change.scope);
    SettledRows(l);
    hide KeyOf, SwitchOn, Signalled, AnyRowOn, AnySignalOn, AllSettled, AnyUnknown, AnyActive;
  }

  lemma SettledRows(l: Ledger)
    ensures AllSettled(l) <==> !AnyUnknown(l) && !AnyActive(l)
    ensures SomeUnknown(l) <==> AnyUnknown(l)
  {
    if k :| k in l.executions && l.executions[k].status in {Reserved, InFlight} {
      assert IsActive(l.executions[k].status);
    }
  }

  /** Reserving an execution that will not write needs no approval: it is new and every other one is settled. */
  lemma ReservesWhen(l: Ledger, change: PreparedChange)
    ensures var r := ReserveExecution(l, change);
            && (r.1.Moved? <==> KeyOf(change) !in l.executions && AllSettled(l))
            && (r.1.Moved? ==> r.0 == l.(executions := l.executions[KeyOf(change) := Execution(change, Reserved)]))
            && (!r.1.Moved? ==> r.0 == l)
            && (r.1.Standing? <==> !SomeUnknown(l) && (KeyOf(change) in l.executions || !AllSettled(l)))
            && (r.1.Standing? ==>
                  if KeyOf(change) !in l.executions then r.1.status == Blocked
                  else if l.executions[KeyOf(change)].status in {Applied, NoChange} then r.1.status == AlreadyProcessed
                  else r.1.status == l.executions[KeyOf(change)].status)
  {
    SettledRows(l);
    hide KeyOf, AllSettled, AnyUnknown, AnyActive;
  }

  /** Beginning it needs the approval of this change, and its reserved row. */
  lemma BeginsWhen(l: Ledger, change: PreparedChange, id: string, now: int)
    ensures var r, key := BeginExecution(l, change, id, now), KeyOf(change);
            && (r.1.Moved? <==>
                  ApprovedFor(l, id, change, now) && key in l.executions && l.executions[key].status == Reserved)
            && (r.1.Moved? ==>
                  r.0 == l.(executions := l.executions[key := l.executions[key].(status := InFlight)], approvals := Taking(l, id, change)))
            && (!r.1.Moved? ==> r.0 == l && r.1.Refused?)
  {
    hide KeyOf;
  }

  /** The consuming transaction: no row is on, and the approval is reserved for this execution, unused, unrevoked and unexpired. */
  lemma ConsumesWhen(l: Ledger, change: PreparedChange, id: string, now: int)
    ensures var r := ConsumeRows(l, change, id, now);
            && (r.1.Moved? <==>
                  && !AnyRowOn(l.switches, change.scope) && id in l.approvals
                  && var row := l.approvals[id];
                  row.reserved == Some(KeyOf(change)) && row.used == None && !row.revoked && now < row.expires)
            && (r.1.Moved? ==>
                  r.0 == l.(approvals := l.approvals[id := l.approvals[id].(used := Some(KeyOf(change)))]))
            && (!r.1.Moved? ==> r.0 == l && r.1.Refused?)
  {
    RowsOnWhen(l.switches, change.scope);
    hide KeyOf, SwitchOn, AnyRowOn;
  }

  /** A reservation is given back if and only if it is of this execution and unused. */
  lemma ReleasesWhen(l: Ledger, id: string, key: ExecutionKey)
    ensures var r := ReleaseReservation(l, id, key);
            if id in l.approvals && l.approvals[id].reserved == Some(key) && l.approvals[id].used == None
            then r == l.(approvals := l.approvals[id := l.approvals[id].(reserved := None)]) else r == l
  {
  }

  /** Only a reserved or in-flight execution is finished; a repeated status is answered, and anything else is refused. */
  lemma FinishesWhen(l: Ledger, key: ExecutionKey, status: Status)
    requires IsFinal(status)
    ensures var r := Finish(l, key, status);
            && (r.1.Moved? <==> key in l.executions && l.executions[key].status in {Reserved, InFlight})
            && (r.1.Moved? ==> r.0 == l.(executions := l.executions[key := l.executions[key].(status := status)]))
            && (!r.1.Moved? ==> r.0 == l && (r.1.Standing? <==> key in l.executions && l.executions[key].status == status))
            && (r.1.Standing? ==> r.1.status == status)
  {
  }

  /** The one approver grants, with a reason and a future expiry; an approval that is there stays as it is. */
  lemma GrantsWhen(l: Ledger, id: string, change: PreparedChange, approver: string, reason: string, expires: int, now: int)
    ensures var r := Grant(l, id, change, approver, reason, expires, now);
            && (r.1.Ok? <==> approver == "sviridov" && !IsBlank(reason) && now < expires)
            && (if r.1.Ok? && id !in l.approvals
                then r.0 == l.(approvals := l.approvals[id := Approval(change, approver, expires, false, None, None)]) else r.0 == l)
  {
  }

  /** Only its approver revokes an approval, and only before it is used. */
  lemma RevokesWhen(l: Ledger, id: string, principal: string)
    ensures var r := RevokeApproval(l, id, principal);
            && (r.1.Ok? <==> id in l.approvals && l.approvals[id].approver == principal && l.approvals[id].used == None)
            && (if r.1.Ok? then r.0 == l.(approvals := l.approvals[id := l.approvals[id].(revoked := true)]) else r.0 == l)
  {
  }

  // ---------- every approval is for a plan, and reserved for that plan only ----------

  ghost predicate Bound(l: Ledger, plans: map<string, PreparedChange>) {
    forall id :: id in l.approvals ==> BoundRow(l.approvals[id], plans)
  }

  predicate BoundRow(row: Approval, plans: map<string, PreparedChange>) {
    && row.binding.proposal in plans && plans[row.binding.proposal] == row.binding
    && (row.reserved.Some? ==> row.reserved == Some(KeyOf(row.binding)))
  }

  lemma StartBound(w: World, ex: nat, proposal: string, approval: string, now: int)
    requires PlansOk(w) && Bound(w.ledger, w.plans)
    ensures Bound(DoStart(w, ex, proposal, approval, now).ledger, w.plans)
  {
    hide SendOnce, KeyOf, AnyRowOn, AnySignalOn, AllSettled;
    if proposal in w.plans {
      SendsWhen(w.ledger, w.signals, w.plans[proposal], approval, now);
    }
  }

  lemma ConsumeBound(w: World, ex: nat, now: int)
    requires Bound(w.ledger, w.plans)
    ensures Bound(DoConsume(w, ex, now).ledger, w.plans)
  {
    hide ConsumeRows, KeyOf, AnyRowOn;
    if ex in w.executors && w.executors[ex].Checked? && w.executors[ex].path.ByApproval? {
      ConsumesWhen(w.ledger, w.executors[ex].change, w.executors[ex].path.approval, now);
    }
  }

  lemma BeginBound(w: World, ex: nat, approval: string, now: int)
    requires PlansOk(w) && Bound(w.ledger, w.plans)
    ensures Bound(DoBeginQuiet(w, ex, approval, now).ledger, w.plans)
  {
    hide BeginExecution, KeyOf;
    if ex in w.executors && w.executors[ex].Quiet? {
      BeginsWhen(w.ledger, w.executors[ex].change, approval, now);
    }
  }

  lemma ReleaseBound(l: Ledger, plans: map<string, PreparedChange>, id: string, key: ExecutionKey)
    requires Bound(l, plans)
    ensures Bound(ReleaseReservation(l, id, key), plans)
  {
    hide KeyOf;
  }

  lemma ApproverBound(w: World, event: Event)
    requires PlansOk(w) && Bound(w.ledger, w.plans) && (event.AddApproval? || event.DropApproval?)
    ensures Bound(Others(w, event).ledger, w.plans)
  {
    hide IsBlank, KeyOf;
  }

  predicate TouchesApprovals(event: Event) {
    event.Start? || event.Consume? || event.BeginQuiet? || event.ReleaseQuiet? || event.Release? || event.AddApproval? || event.DropApproval?
  }

  /** The other events leave the approvals alone. */
  lemma ApprovalsStay(w: World, event: Event)
    requires !TouchesApprovals(event)
    ensures Next(w, event).ledger.approvals == w.ledger.approvals
  {
    hide Next;
    if event.Hold? || event.StartQuiet? || event.StartHeld? || event.FinishQuiet? || event.FinishHeld? || event.Block? || event.Classify?
       || event.ReadCheck? || event.Call? || event.Refuse? || event.Reject? || event.Crash?
    {
      ExecutorApprovals(w, event);
    } else {
      OutsideApprovals(w, event);
    }
  }

  lemma ExecutorApprovals(w: World, event: Event)
    requires event.Hold? || event.StartQuiet? || event.StartHeld? || event.FinishQuiet? || event.FinishHeld? || event.Block? || event.Classify?
             || event.ReadCheck? || event.Call? || event.Refuse? || event.Reject? || event.Crash?
    ensures Next(w, event).ledger.approvals == w.ledger.approvals
  {
    hide DoStart, DoConsume, DoBeginQuiet, DoReleaseQuiet, DoRelease, DoHold, ReserveExecution, MandateSend, Finish, ReadPasses, KeyOf, Others;
    match event
    case Hold(ex, proposal, mandate, now) => HoldApprovals(w, ex, proposal, mandate, now);
    case StartQuiet(ex, proposal) => if proposal in w.plans { ReserveApprovals(w.ledger, w.plans[proposal]); }
    case StartHeld(ex, now) =>
      if ex in w.executors && w.executors[ex].Holding? {
        SendApprovals(w.ledger, w.signals, w.executors[ex].change, w.executors[ex].mandate, now);
      }
    case FinishQuiet(ex) => if ex in w.executors { FinishApprovals(w.ledger, KeyOf(w.executors[ex].change), NoChange); }
    case FinishHeld(ex) => if ex in w.executors { FinishApprovals(w.ledger, KeyOf(w.executors[ex].change), NoChange); }
    case Block(ex) => if ex in w.executors { FinishApprovals(w.ledger, KeyOf(w.executors[ex].change), Blocked); }
    case Classify(ex, status) =>
      if ex in w.executors && IsReadback(status) { FinishApprovals(w.ledger, KeyOf(w.executors[ex].change), status); }
    case _ =>
  }

  lemma OutsideApprovals(w: World, event: Event)
    requires event.Reconcile? || event.RecordReadback? || event.AddPlan? || event.AddMandate? || event.StartMandate?
             || event.SignalRevocation? || event.RevokeRow? || event.SignalKill? || event.SwitchRow? || event.ClearKill?
    ensures Next(w, event).ledger.approvals == w.ledger.approvals
  {
    OutsideIs(w, event);
    hide Next, Finish, RecordRecheck, Grant, RevokeApproval, Issue, Activate, RevokeMandate, KeyOf;
    match event
    case RecordReadback(proposal, mandate, status, now) =>
      if proposal in w.plans && (status == Applied || status == UnknownResult) {
        RecheckApprovals(w.ledger, w.plans[proposal], mandate, status, now);
      }
    case Reconcile(key, status) => if IsReadback(status) { FinishApprovals(w.ledger, key, status); }
    case AddMandate(id, terms) => MandateRowApprovals(w.ledger, id, terms, 0);
    case StartMandate(id, now) => MandateRowApprovals(w.ledger, id, ANY_TERMS, now);
    case RevokeRow(id) => MandateRowApprovals(w.ledger, id, ANY_TERMS, 0);
    case _ =>
  }

  const ANY_TERMS := MandateTerms("", "", "", {}, {}, {}, "", 0, 0, 0, 0, 0, 0, 0)

  lemma OutsideIs(w: World, event: Event)
    requires event.Reconcile? || event.RecordReadback? || event.AddPlan? || event.AddMandate? || event.StartMandate?
             || event.SignalRevocation? || event.RevokeRow? || event.SignalKill? || event.SwitchRow? || event.ClearKill?
    ensures Next(w, event) == Others(w, event)
  {
    hide Others;
  }

  lemma MandateRowApprovals(l: Ledger, id: string, terms: MandateTerms, now: int)
    ensures Issue(l, id, terms).0.approvals == l.approvals && Activate(l, id, now).0.approvals == l.approvals
    ensures RevokeMandate(l, id).0.approvals == l.approvals
  {
  }

  lemma ReserveApprovals(l: Ledger, change: PreparedChange)
    ensures ReserveExecution(l, change).0.approvals == l.approvals
  {
    hide KeyOf;
  }

  lemma SendApprovals(l: Ledger, signals: set<Signal>, change: PreparedChange, id: string, now: int)
    ensures MandateSend(l, signals, change, id, now).0.approvals == l.approvals
  {
    hide MandateProblem, BindingProblem, SwitchOn, ConsumedBy, KeyOf;
  }

  lemma RecheckApprovals(l: Ledger, change: PreparedChange, id: string, status: Status, now: int)
    requires status == Applied || status == UnknownResult
    ensures RecordRecheck(l, change, id, status, now).0.approvals == l.approvals
  {
    hide ConsumedBy, KeyOf;
  }

  lemma FinishApprovals(l: Ledger, key: ExecutionKey, status: Status)
    requires IsFinal(status)
    ensures Finish(l, key, status).0.approvals == l.approvals
  {
  }

  lemma StepBound(w: World, event: Event)
    requires WorldOk(w) && Bound(w.ledger, w.plans)
    ensures Bound(Next(w, event).ledger, w.plans)
  {
    hide CallsOk, AuthorityOk, PlansOk, Bound, DoStart, DoConsume, DoBeginQuiet, DoReleaseQuiet, DoRelease, DoHold, DoStartQuiet,
         DoFinishQuiet, DoFinishHeld, DoStartHeld, DoReadCheck, DoCall, DoRefuse, DoReject, DoBlock, DoClassify, Others;
    match event
    case Start(ex, proposal, approval, now) => StartBound(w, ex, proposal, approval, now);
    case Consume(ex, now) => ConsumeBound(w, ex, now);
    case BeginQuiet(ex, approval, now) => BeginBound(w, ex, approval, now);
    case ReleaseQuiet(ex) => GivenBackBound(w, ex);
    case Release(ex) => GivenBackBound(w, ex);
    case AddApproval(_, _, _, _, _, _) => ApproverBound(w, event);
    case DropApproval(_, _) => ApproverBound(w, event);
    case _ =>
      ApprovalsStay(w, event);
      SameBound(w.ledger, Next(w, event).ledger, w.plans);
  }

  lemma GivenBackBound(w: World, ex: nat)
    requires Bound(w.ledger, w.plans)
    ensures Bound(DoReleaseQuiet(w, ex).ledger, w.plans) && Bound(DoRelease(w, ex).ledger, w.plans)
  {
    hide Bound, ReleaseReservation;
    if ex in w.executors {
      var change := w.executors[ex].change;
      if w.executors[ex].Begun? {
        ReleaseBound(w.ledger, w.plans, w.executors[ex].approval, KeyOf(change));
      }
      if w.executors[ex].Releasing? {
        ReleaseBound(w.ledger, w.plans, w.executors[ex].approval, KeyOf(change));
      }
    }
  }

  lemma SameBound(l: Ledger, later: Ledger, plans: map<string, PreparedChange>)
    requires Bound(l, plans) && later.approvals == l.approvals
    ensures Bound(later, plans)
  {
    hide BoundRow;
  }

  /** Plans are only added. */
  lemma PlansGrow(w: World, event: Event)
    ensures forall p :: p in w.plans ==> p in Next(w, event).plans && Next(w, event).plans[p] == w.plans[p]
  {
    hide DoStart, DoStartHeld, DoConsume, DoReadCheck, DoCall;
    if event.AddPlan? {
    } else if IsQuiet(event) {
      QuietLog(w, event);
      hide Next;
    } else {
      LoudPlans(w, event);
      hide Next;
    }
  }

  lemma LoudPlans(w: World, event: Event)
    requires !IsQuiet(event)
    ensures Next(w, event).plans == w.plans
  {
    hide SendOnce, ConsumeRows, MandateSend, ReadPasses, KeyOf;
  }

  lemma MorePlansBound(l: Ledger, plans: map<string, PreparedChange>, more: map<string, PreparedChange>)
    requires Bound(l, plans) && forall p :: p in plans ==> p in more && more[p] == plans[p]
    ensures Bound(l, more)
  {
    hide KeyOf;
  }

  // ---------- what was written down ----------

  /** The commit that consumed an approval: of a row that fits, under the execution key of one of the plans. */
  predicate CommitBound(entry: Entry, plans: map<string, PreparedChange>) {
    entry.Consumption? ==>
      && BoundRow(entry.row, plans) && entry.row.reserved == Some(entry.key)
      && entry.key.proposal in plans && entry.key == KeyOf(plans[entry.key.proposal]) && entry.scope == plans[entry.key.proposal].scope
      && !AnyRowOn(entry.switches, entry.scope)
  }

  ghost predicate LogBound(log: seq<Entry>, plans: map<string, PreparedChange>) {
    forall i :: 0 <= i < |log| ==> CommitBound(log[i], plans)
  }

  lemma StepLog(w: World, event: Event)
    requires WorldOk(w) && Bound(w.ledger, w.plans) && LogBound(w.log, w.plans)
    ensures LogBound(Next(w, event).log, w.plans)
  {
    hide CallsOk, AuthorityOk, Bound, CommitBound, DoStart, DoConsume, DoCall, DoStartHeld, DoReadCheck;
    if event.Consume? {
      ConsumeLog(w, event.ex, event.now);
    } else if event.Call? {
      CallLog(w, event.ex);
    } else if event.AddPlan? {
    } else if IsQuiet(event) {
      QuietLog(w, event);
      hide Next;
    } else {
      SilentLog(w, event);
      hide Next;
    }
  }

  lemma SilentLog(w: World, event: Event)
    requires event.Start? || event.StartHeld? || event.ReadCheck?
    ensures Next(w, event).log == w.log
  {
    hide SendOnce, MandateSend, ReadPasses, KeyOf;
  }

  lemma CallLog(w: World, ex: nat)
    requires LogBound(w.log, w.plans)
    ensures LogBound(DoCall(w, ex).log, w.plans)
  {
    hide BoundRow;
  }

  lemma ConsumeLog(w: World, ex: nat, now: int)
    requires PlansOk(w) && Bound(w.ledger, w.plans) && LogBound(w.log, w.plans)
    ensures LogBound(DoConsume(w, ex, now).log, w.plans)
  {
    hide ConsumeRows, AnyRowOn;
    if ex in w.executors && w.executors[ex].Checked? && w.executors[ex].path.ByApproval? {
      ConsumesWhen(w.ledger, w.executors[ex].change, w.executors[ex].path.approval, now);
    }
  }

  lemma MorePlansLog(log: seq<Entry>, plans: map<string, PreparedChange>, more: map<string, PreparedChange>)
    requires LogBound(log, plans) && forall p :: p in plans ==> p in more && more[p] == plans[p]
    ensures LogBound(log, more)
  {
    hide KeyOf, AnyRowOn;
  }

  lemma {:induction false} RunBound(w: World, events: seq<Event>)
    requires WorldOk(w) && Bound(w.ledger, w.plans) && LogBound(w.log, w.plans)
    ensures var later := Run(w, events); WorldOk(later) && Bound(later.ledger, later.plans) && LogBound(later.log, later.plans)
    decreases |events|
  {
    hide WorldOk, Next, Bound, LogBound;
    if events != [] {
      var later := Next(w, events[0]);
      StepKeeps(w, events[0]);
      StepBound(w, events[0]);
      StepLog(w, events[0]);
      PlansGrow(w, events[0]);
      MorePlansBound(later.ledger, w.plans, later.plans);
      MorePlansLog(later.log, w.plans, later.plans);
      RunBound(later, events[1..]);
    }
  }

  // ---------- the theorem ----------

  lemma EmptyBound()
    ensures WorldOk(EMPTY_WORLD) && Bound(EMPTY_WORLD.ledger, EMPTY_WORLD.plans) && LogBound(EMPTY_WORLD.log, EMPTY_WORLD.plans)
  {
  }

  /** A commit that consumed this approval for this change: given for it, reserved for it, free, in time, and no row on. */
  predicate ConsumedFor(entry: Entry, change: PreparedChange, id: string) {
    && entry.Consumption? && entry.approval == id
    && entry.row.binding == change && entry.row.reserved == Some(KeyOf(change))
    && entry.row.used == None && !entry.row.revoked && entry.at < entry.row.expires
    && entry.scope == change.scope && !AnyRowOn(entry.switches, change.scope)
  }

  /**
   * Whatever executors, revokers and operators do: every call of the approval path follows a commit that consumed an approval
   * given for exactly the change that is sent.
   */
  lemma {:induction false} CallsAreApproved(events: seq<Event>, i: nat) returns (n: nat)
    requires i < |Run(EMPTY_WORLD, events).log|
    requires Run(EMPTY_WORLD, events).log[i].Transport? && Run(EMPTY_WORLD, events).log[i].path.ByApproval?
    ensures var log := Run(EMPTY_WORLD, events).log;
            n < i && ConsumedFor(log[n], log[i].change, log[i].path.approval)
  {
    hide Run, CallsOf, SwitchOn, AnyRowOn, UsedBy, Started;
    EmptyBound();
    RunBound(EMPTY_WORLD, events);
    var w := Run(EMPTY_WORLD, events);
    var change, id := w.log[i].change, w.log[i].path.approval;
    assert Authorized(w.log[..i], KeyOf(change), id);
    n :| 0 <= n < i && Authorizes(w.log[..i][n], KeyOf(change), id);
    assert CommitBound(w.log[n], w.plans);
  }
}
