/** The durable quiet window between two applied writes. */
module WriteWindow {
  import opened Basics

  datatype GateStatus = InProgress | Live

  datatype GateRow = GateRow(key: string, status: GateStatus, reserved: int, until: Option<int>)

  /** The single gate row, and the times at which writes were applied so far. */
  datatype Gate = Gate(row: Option<GateRow>, applied: seq<int>)

  datatype Decision = Allowed | Refused(reason: string)

  function Reserve(g: Gate, key: string, now: int): (Gate, Decision) {
    if key == "" then (g, Refused("Write-window execution key is required."))
    else if g.row.Some? && g.row.value.status == InProgress then (g, Refused("WRITE_WINDOW_IN_PROGRESS"))
    else if g.row.Some? && g.row.value.until.Some? && now < g.row.value.until.value then
      (g, Refused("COOLDOWN_AND_OBSERVATION_ACTIVE"))
    else (g.(row := Some(GateRow(key, InProgress, now, None))), Allowed)
  }

  predicate Reserves(g: Gate, key: string) {
    g.row.Some? && g.row.value.key == key && g.row.value.status == InProgress
  }

  function Activate(g: Gate, key: string, at: int, window: int): (Gate, bool) {
    if !Reserves(g, key) then (g, false)
    else (Gate(Some(g.row.value.(status := Live, until := Some(at + window))), g.applied + [at]), true)
  }

  function Release(g: Gate, key: string): Gate {
    if Reserves(g, key) then g.(row := None) else g
  }

  /** How an execution's outcome settles its reservation; an unknown outcome keeps the gate in progress. */
  datatype Settlement = AppliedWrite | Unwritten | UnknownWrite

  function Settle(g: Gate, key: string, settlement: Settlement, now: int, window: int): (Gate, bool) {
    match settlement
    case AppliedWrite => Activate(g, key, now, window)
    case Unwritten => (Release(g, key), true)
    case UnknownWrite => (g, true)
  }

  datatype Op =
    | ReserveOp(key: string, now: int)
    | SettleOp(key: string, settlement: Settlement, now: int)
    | ReleaseOp(key: string, now: int)

  function Do(g: Gate, window: int, op: Op): Gate {
    match op
    case ReserveOp(key, now) => Reserve(g, key, now).0
    case SettleOp(key, settlement, now) => Settle(g, key, settlement, now, window).0
    case ReleaseOp(key, now) => Release(g, key)
  }

  function DoAll(g: Gate, window: int, ops: seq<Op>): Gate
    decreases |ops|
  {
    if ops == [] then g else DoAll(Do(g, window, ops[0]), window, ops[1..])
  }

  const OPEN_GATE := Gate(None, [])

  /** The clock reads of a run, from `clock` on, never step back. */
  predicate Forward(clock: int, ops: seq<Op>)
    decreases |ops|
  {
    ops == [] || (clock <= ops[0].now && Forward(ops[0].now, ops[1..]))
  }

  /** Applied writes are a window apart, a live row shows the last one, and without a live row its window has passed. */
  ghost predicate GateOk(g: Gate, window: int, clock: int) {
    && (forall i :: 0 < i < |g.applied| ==> g.applied[i] - g.applied[i - 1] >= window)
    && (g.row.Some? ==> (g.row.value.status == Live <==> g.row.value.until.Some?))
    && (g.applied == [] ==> !(g.row.Some? && g.row.value.status == Live))
    && (g.applied != [] ==>
          if g.row.Some? && g.row.value.status == Live then g.row.value.until == Some(Last(g.applied) + window)
          else Last(g.applied) + window <= clock)
  }

  lemma DoKeepsGate(g: Gate, window: int, clock: int, op: Op)
    requires GateOk(g, window, clock) && clock <= op.now
    ensures GateOk(Do(g, window, op), window, op.now)
  {
  }

  function ClockAfter(clock: int, ops: seq<Op>): int
    decreases |ops|
  {
    if ops == [] then clock else ClockAfter(ops[0].now, ops[1..])
  }

  /** Over any sequence of reservations, settlements and releases consecutive applied writes are at least a window apart. */
  lemma {:induction false} WritesAreSpaced(g: Gate, window: int, clock: int, ops: seq<Op>)
    requires GateOk(g, window, clock) && Forward(clock, ops)
    ensures GateOk(DoAll(g, window, ops), window, ClockAfter(clock, ops))
    decreases |ops|
  {
    hide Do, GateOk;
    if ops != [] {
      DoKeepsGate(g, window, clock, ops[0]);
      WritesAreSpaced(Do(g, window, ops[0]), window, ops[0].now, ops[1..]);
    }
  }

  /** While a window is live nothing opens the gate or shortens it: no reservation is granted and no settlement changes it. */
  lemma {:induction false} LiveWindowStands(g: Gate, window: int, ops: seq<Op>)
    requires g.row.Some? && g.row.value.status == Live && g.row.value.until.Some?
    requires forall op <- ops :: op.now < g.row.value.until.value
    ensures DoAll(g, window, ops) == g
    decreases |ops|
  {
    if ops != [] {
      assert ops[0] in ops && forall op <- ops[1..] :: op in ops;
      LiveWindowStands(Do(g, window, ops[0]), window, ops[1..]);
    }
  }

  /** One write at a time: while a reservation is in progress no other key is admitted. */
  lemma OneReservation(g: Gate, key: string, other: string, now: int)
    requires Reserves(g, key)
    ensures Reserve(g, other, now).1 != Allowed && Reserve(g, other, now).0 == g
    ensures other != key ==> Release(g, other) == g
  {
  }

  class DurableWriteWindowGate {
    const window: int
    var row: Option<GateRow>
    ghost var applied: seq<int>

    constructor (window: int)
      ensures this.window == window && View() == OPEN_GATE
    {
      this.window := window;
      row, applied := None, [];
    }

    ghost function View(): Gate
      reads this
    {
      Gate(row, applied)
    }

    method ReserveWindow(key: string, now: int) returns (decision: Decision)
      modifies this`row
      ensures (View(), decision) == Reserve(old(View()), key, now)
    {
      if key == "" {
        return Refused("Write-window execution key is required.");
      }
      if row.Some? {
        if row.value.status == InProgress {
          return Refused("WRITE_WINDOW_IN_PROGRESS");
        }
        if row.value.until.Some? && now < row.value.until.value {
          return Refused("COOLDOWN_AND_OBSERVATION_ACTIVE");
        }
      }
      row := Some(GateRow(key, InProgress, now, None));
      decision := Allowed;
    }

    method ActivateWindow(key: string, at: int) returns (done: bool)
      modifies this
      ensures (View(), done) == Activate(old(View()), key, at, window)
    {
      done := row.Some? && row.value.key == key && row.value.status == InProgress;
      if done {
        row := Some(row.value.(status := Live, until := Some(at + window)));
        applied := applied + [at];
      }
    }

    method ReleaseWindow(key: string)
      modifies this`row
      ensures View() == Release(old(View()), key)
    {
      if row.Some? && row.value.key == key && row.value.status == InProgress {
        row := None;
      }
    }
  }

  // ---------- exactly when each transaction is granted ----------

  /** The window is taken if and only if no write is in progress and the last live window has passed. */
  lemma ReservesWhen(g: Gate, key: string, now: int)
    ensures var r := Reserve(g, key, now);
            && (r.1 == Allowed <==>
                  && key != ""
                  && (g.row.Some? ==> g.row.value.status == Live && (g.row.value.until.Some? ==> g.row.value.until.value <= now)))
            && r.0 == if r.1 == Allowed then g.(row := Some(GateRow(key, InProgress, now, None))) else g
  {
  }

  /** Only the write in progress opens its window or gives it back. */
  lemma SettlesWhen(g: Gate, key: string, at: int, window: int)
    ensures var mine := g.row.Some? && g.row.value.key == key && g.row.value.status == InProgress;
            && Activate(g, key, at, window).1 == mine
            && Activate(g, key, at, window).0
               == (if mine then Gate(Some(GateRow(key, Live, g.row.value.reserved, Some(at + window))), g.applied + [at]) else g)
            && Release(g, key) == (if mine then Gate(None, g.applied) else g)
  {
  }
}
