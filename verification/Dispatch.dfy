/**
 * Executors of both paths, operators and reconcilers over one control database, interleaved at every commit.
 * One event is one transaction, one read of a check, one transport call, or the crash of one executor. A transaction that
 * reads the sidecar while it holds the database's write lock is one event, placed at that read.
 */
module Dispatch {
  import opened Basics
  import opened Commands
  import opened ExecutionLedger

  datatype Path = ByApproval(approval: string) | ByMandate(mandate: string)

  /** Where an executor stands between two commits. */
  datatype Position =
    | Holding(change: PreparedChange, mandate: string)
    | Cleared(change: PreparedChange, path: Path)
    | Checked(change: PreparedChange, path: Path, made: nat)
    | Armed(change: PreparedChange, path: Path)
    | Sent(change: PreparedChange)
    | Releasing(change: PreparedChange, approval: string)
    | Blocking(change: PreparedChange)
    | Quiet(change: PreparedChange)
    | Begun(change: PreparedChange, approval: string)
    | Settling(change: PreparedChange)

  /** What an observer of the run would have written down: consuming commits and transport calls. */
  datatype Entry =
    | Consumption(key: ExecutionKey, approval: string, row: Approval, switches: map<string, bool>, scope: Scope, at: int)
    | Transport(change: PreparedChange, path: Path)

  /** `plans` are the immutable prepared changes, one per proposal. */
  datatype World = World(
    ledger: Ledger, signals: set<Signal>, plans: map<string, PreparedChange>, executors: map<nat, Position>, log: seq<Entry>)

  datatype Event =
    // executors
    | Start(ex: nat, proposal: string, approval: string, now: int)
    | Consume(ex: nat, now: int)
    | StartQuiet(ex: nat, proposal: string)
    | BeginQuiet(ex: nat, approval: string, now: int)
    | ReleaseQuiet(ex: nat)
    | FinishQuiet(ex: nat)
    | Hold(ex: nat, proposal: string, mandate: string, now: int)
    | FinishHeld(ex: nat)
    | StartHeld(ex: nat, now: int)
    | ReadCheck(ex: nat, now: int)
    | Call(ex: nat)
    | Refuse(ex: nat)
    | Reject(ex: nat, proposal: string)
    | Release(ex: nat)
    | Block(ex: nat)
    | Classify(ex: nat, status: Status)
    | Crash(ex: nat)
    // everyone else
    | Reconcile(key: ExecutionKey, status: Status)
    | RecordReadback(proposal: string, mandate: string, status: Status, now: int)
    | AddPlan(change: PreparedChange)
    | AddApproval(id: string, proposal: string, approver: string, reason: string, expires: int, now: int)
    | DropApproval(id: string, principal: string)
    | AddMandate(id: string, terms: MandateTerms)
    | StartMandate(id: string, now: int)
    | SignalRevocation(id: string)
    | RevokeRow(id: string)
    | SignalKill(scope: string)
    | SwitchRow(scope: string, on: bool)
    | ClearKill(scope: string)

  function At(w: World, ex: nat, position: Position): World {
    w.(executors := w.executors[ex := position])
  }

  function Gone(w: World, ex: nat): World {
    w.(executors := w.executors - {ex})
  }

  // ---------- one event ----------

  function DoStart(w: World, ex: nat, proposal: string, approval: string, now: int): World {
    if ex in w.executors || proposal !in w.plans then w
    else
      var change := w.plans[proposal];
      var sent := SendOnce(w.ledger, w.signals, change, approval, now);
      if sent.1.Moved? then At(w.(ledger := sent.0), ex, Cleared(change, ByApproval(approval))) else w
  }

  /** The consuming transaction, after the sidecar was read: it reads the database's rows only. */
  function DoConsume(w: World, ex: nat, now: int): World {
    if ex !in w.executors || !w.executors[ex].Checked? || !w.executors[ex].path.ByApproval? then w
    else
      var change, id := w.executors[ex].change, w.executors[ex].path.approval;
      var consumed := ConsumeRows(w.ledger, change, id, now);
      if consumed.1.Moved? then
        var entry := Entry.Consumption(KeyOf(change), id, w.ledger.approvals[id], w.ledger.switches, change.scope, now);
        At(w.(ledger := consumed.0, log := w.log + [entry]), ex, Armed(change, ByApproval(id)))
      else At(w, ex, TurnedBack(change, ByApproval(id)))
  }

  function DoStartQuiet(w: World, ex: nat, proposal: string): World {
    if ex in w.executors || proposal !in w.plans then w
    else
      var reserved := ReserveExecution(w.ledger, w.plans[proposal]);
      if reserved.1.Moved? then At(w.(ledger := reserved.0), ex, Quiet(w.plans[proposal])) else w
  }

  function DoBeginQuiet(w: World, ex: nat, approval: string, now: int): World {
    if ex !in w.executors || !w.executors[ex].Quiet? then w
    else
      var change := w.executors[ex].change;
      var begun := BeginExecution(w.ledger, change, approval, now);
      if begun.1.Moved? then At(w.(ledger := begun.0), ex, Begun(change, approval)) else Gone(w, ex)
  }

  function DoReleaseQuiet(w: World, ex: nat): World {
    if ex !in w.executors || !w.executors[ex].Begun? then w
    else
      var change, id := w.executors[ex].change, w.executors[ex].approval;
      At(w.(ledger := ReleaseReservation(w.ledger, id, KeyOf(change))), ex, Settling(change))
  }

  function DoFinishQuiet(w: World, ex: nat): World {
    if ex !in w.executors || !w.executors[ex].Settling? then w
    else Gone(w.(ledger := Finish(w.ledger, KeyOf(w.executors[ex].change), NoChange).0), ex)
  }

  /** The mandate path goes on with a RESERVED row, also with one that another executor inserted. */
  function DoHold(w: World, ex: nat, proposal: string, mandate: string, now: int): World {
    if ex in w.executors || proposal !in w.plans then w
    else
      var change := w.plans[proposal];
      var reserved := MandateReserve(w.ledger, w.signals, change, mandate, now);
      if reserved.1.Moved? then At(w.(ledger := reserved.0), ex, Holding(change, mandate))
      else if reserved.1 == Standing(Reserved) then At(w, ex, Holding(change, mandate))
      else if reserved.1.Refused? then At(w, ex, Blocking(change))
      else w
  }

  function DoFinishHeld(w: World, ex: nat): World {
    if ex !in w.executors || !w.executors[ex].Holding? then w
    else Gone(w.(ledger := Finish(w.ledger, KeyOf(w.executors[ex].change), NoChange).0), ex)
  }

  /** An executor that finds the execution already in flight goes on as if its own call had returned. */
  function DoStartHeld(w: World, ex: nat, now: int): World {
    if ex !in w.executors || !w.executors[ex].Holding? then w
    else
      var change, id := w.executors[ex].change, w.executors[ex].mandate;
      var sent := MandateSend(w.ledger, w.signals, change, id, now);
      if sent.1.Moved? then At(w.(ledger := sent.0), ex, Cleared(change, ByMandate(id)))
      else if sent.1 == Standing(InFlight) then At(w, ex, Sent(change))
      else if sent.1.Refused? then At(w, ex, Blocking(change))
      else Gone(w, ex)
  }

  /** A refused approval is given back before the execution is closed. */
  function TurnedBack(change: PreparedChange, path: Path): Position {
    if path.ByApproval? then Releasing(change, path.approval) else Blocking(change)
  }

  /** How many reads of the last check an executor has behind it, when it has another one to make. */
  function ReadsMade(position: Position): Option<nat> {
    match position
    case Cleared(_, _) => Some(0)
    case Checked(_, ByMandate(_), made) => Some(made)
    case _ => None
  }

  /**
   * One read of the last check. The approval path reads the kill signals and then starts its transaction; the mandate path
   * reads the revocation signal, the kill signals, the mandate's row and the switches, each on its own.
   */
  predicate ReadPasses(w: World, change: PreparedChange, path: Path, made: nat, now: int) {
    match path
    case ByApproval(_) => !Signalled(w.signals, change.scope)
    case ByMandate(id) =>
      if made == 0 then RevokedSignal(id) !in w.signals
      else if made == 1 then !Signalled(w.signals, change.scope)
      else if made == 2 then MandateStands(w.ledger, id, now)
      else !SwitchOn(w.ledger.switches, change.scope)
  }

  function AfterRead(change: PreparedChange, path: Path, made: nat): Position {
    if path.ByMandate? && made >= 3 then Armed(change, path) else Checked(change, path, made + 1)
  }

  function DoReadCheck(w: World, ex: nat, now: int): World {
    if ex !in w.executors || ReadsMade(w.executors[ex]).None? then w
    else
      var change, path, made := w.executors[ex].change, w.executors[ex].path, ReadsMade(w.executors[ex]).value;
      At(w, ex, if ReadPasses(w, change, path, made, now) then AfterRead(change, path, made) else TurnedBack(change, path))
  }

  function DoCall(w: World, ex: nat): World {
    if ex !in w.executors || !w.executors[ex].Armed? then w
    else
      At(w.(log := w.log + [Transport(w.executors[ex].change, w.executors[ex].path)]), ex, Sent(w.executors[ex].change))
  }

  /** Any other gate in front of the transport may refuse: audit, write window, policy, current value. */
  function DoRefuse(w: World, ex: nat): World {
    if ex !in w.executors || (!w.executors[ex].Cleared? && !w.executors[ex].Checked?) then w
    else At(w, ex, TurnedBack(w.executors[ex].change, w.executors[ex].path))
  }

  /** The mandate path's refusals before any reservation still go on to close the request's own execution. */
  function DoReject(w: World, ex: nat, proposal: string): World {
    if ex in w.executors || proposal !in w.plans then w else At(w, ex, Blocking(w.plans[proposal]))
  }

  function DoRelease(w: World, ex: nat): World {
    if ex !in w.executors || !w.executors[ex].Releasing? then w
    else
      var change, id := w.executors[ex].change, w.executors[ex].approval;
      At(w.(ledger := ReleaseReservation(w.ledger, id, KeyOf(change))), ex, Blocking(change))
  }

  function DoBlock(w: World, ex: nat): World {
    if ex !in w.executors || !w.executors[ex].Blocking? then w
    else Gone(w.(ledger := Finish(w.ledger, KeyOf(w.executors[ex].change), Blocked).0), ex)
  }

  predicate IsReadback(status: Status) {
    status in {Applied, Failed, UnknownResult}
  }

  function DoClassify(w: World, ex: nat, status: Status): World {
    if ex !in w.executors || !w.executors[ex].Sent? || !IsReadback(status) then w
    else Gone(w.(ledger := Finish(w.ledger, KeyOf(w.executors[ex].change), status).0), ex)
  }

  function Others(w: World, event: Event): World {
    match event
    case Reconcile(key, status) =>
      if IsReadback(status) then w.(ledger := Finish(w.ledger, key, status).0) else w
    case RecordReadback(proposal, mandate, status, now) =>
      if proposal in w.plans && (status == Applied || status == UnknownResult)
      then w.(ledger := RecordRecheck(w.ledger, w.plans[proposal], mandate, status, now).0) else w
    case AddPlan(change) => if change.proposal in w.plans then w else w.(plans := w.plans[change.proposal := change])
    case AddApproval(id, proposal, approver, reason, expires, now) =>
      if proposal in w.plans then w.(ledger := Grant(w.ledger, id, w.plans[proposal], approver, reason, expires, now).0) else w
    case DropApproval(id, principal) => w.(ledger := RevokeApproval(w.ledger, id, principal).0)
    case AddMandate(id, terms) => w.(ledger := Issue(w.ledger, id, terms).0)
    case StartMandate(id, now) => w.(ledger := Activate(w.ledger, id, now).0)
    case SignalRevocation(id) => w.(signals := w.signals + {RevokedSignal(id)})
    case RevokeRow(id) => w.(ledger := RevokeMandate(w.ledger, id).0)
    case SignalKill(scope) => w.(signals := w.signals + {KillSignal(scope)})
    case SwitchRow(scope, on) => w.(ledger := SetSwitch(w.ledger, scope, on))
    case ClearKill(scope) => w.(signals := w.signals - {KillSignal(scope)})
    case _ => w
  }

  function Next(w: World, event: Event): World {
    match event
    case Start(ex, proposal, approval, now) => DoStart(w, ex, proposal, approval, now)
    case Consume(ex, now) => DoConsume(w, ex, now)
    case StartQuiet(ex, proposal) => DoStartQuiet(w, ex, proposal)
    case BeginQuiet(ex, approval, now) => DoBeginQuiet(w, ex, approval, now)
    case ReleaseQuiet(ex) => DoReleaseQuiet(w, ex)
    case FinishQuiet(ex) => DoFinishQuiet(w, ex)
    case Hold(ex, proposal, mandate, now) => DoHold(w, ex, proposal, mandate, now)
    case FinishHeld(ex) => DoFinishHeld(w, ex)
    case StartHeld(ex, now) => DoStartHeld(w, ex, now)
    case ReadCheck(ex, now) => DoReadCheck(w, ex, now)
    case Call(ex) => DoCall(w, ex)
    case Refuse(ex) => DoRefuse(w, ex)
    case Reject(ex, proposal) => DoReject(w, ex, proposal)
    case Release(ex) => DoRelease(w, ex)
    case Block(ex) => DoBlock(w, ex)
    case Classify(ex, status) => DoClassify(w, ex, status)
    case Crash(ex) => Gone(w, ex)
    case _ => Others(w, event)
  }

  function Run(w: World, events: seq<Event>): World
    decreases |events|
  {
    if events == [] then w else Run(Next(w, events[0]), events[1..])
  }

  const EMPTY_WORLD := World(EMPTY_LEDGER, {}, map[], map[], [])
}
