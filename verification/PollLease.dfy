/** The monitoring scheduler's poll lease with fencing generations. */
module PollLease {
  import opened Basics

  datatype SchedulerRow = SchedulerRow(
    lastCompleted: Option<int>, token: Option<string>, started: Option<int>, generation: nat, leaseExpires: Option<int>)

  datatype PollClaim = PollClaim(token: string, generation: nat)

  /** A poll that was persisted: its claim's generation and the time it was evaluated at. */
  datatype Completed = Completed(generation: nat, at: int)

  /** The single scheduler row, absent before the first claim, and the polls persisted so far. */
  datatype Lease = Lease(row: Option<SchedulerRow>, polls: seq<Completed>)

  function Generation(s: Lease): nat {
    if s.row.Some? then s.row.value.generation else 0
  }

  function Claim(s: Lease, now: int, interval: int, timeout: int, token: string): (Lease, Option<PollClaim>) {
    if s.row.None? then
      (s.(row := Some(SchedulerRow(None, Some(token), Some(now), 1, Some(now + timeout)))), Some(PollClaim(token, 1)))
    else
      var row := s.row.value;
      if row.token.Some? && row.leaseExpires.Some? && now < row.leaseExpires.value then (s, None)
      else if row.lastCompleted.Some? && now - row.lastCompleted.value < interval then (s, None)
      else
        var next := row.generation + 1;
        (s.(row := Some(row.(token := Some(token), started := Some(now), generation := next, leaseExpires := Some(now + timeout)))),
         Some(PollClaim(token, next)))
  }

  /** The claim is the row's own, and its lease has not run out. */
  predicate Holds(s: Lease, claim: PollClaim, now: int) {
    && s.row.Some? && s.row.value.token == Some(claim.token) && s.row.value.generation == claim.generation
    && s.row.value.leaseExpires.Some? && now < s.row.value.leaseExpires.value
  }

  predicate Names(s: Lease, claim: PollClaim) {
    s.row.Some? && s.row.value.token == Some(claim.token) && s.row.value.generation == claim.generation
  }

  function Heartbeat(s: Lease, claim: PollClaim, now: int, timeout: int): (Lease, bool) {
    if !Holds(s, claim, now) then (s, false)
    else (s.(row := Some(s.row.value.(leaseExpires := Some(now + timeout)))), true)
  }

  function Release(s: Lease, claim: PollClaim): Lease {
    if !Names(s, claim) then s
    else s.(row := Some(s.row.value.(token := None, started := None, leaseExpires := None)))
  }

  function Persist(s: Lease, claim: PollClaim, completedAt: int): (Lease, bool) {
    if !Holds(s, claim, completedAt) then (s, false)
    else
      (Lease(Some(s.row.value.(lastCompleted := Some(completedAt), token := None, started := None, leaseExpires := None)),
             s.polls + [Completed(claim.generation, completedAt)]),
       true)
  }

  datatype Op =
    | ClaimOp(now: int, token: string)
    | HeartbeatOp(claim: PollClaim, now: int)
    | ReleaseOp(claim: PollClaim)
    | PersistOp(claim: PollClaim, at: int)

  function Do(s: Lease, interval: int, timeout: int, op: Op): Lease {
    match op
    case ClaimOp(now, token) => Claim(s, now, interval, timeout, token).0
    case HeartbeatOp(claim, now) => Heartbeat(s, claim, now, timeout).0
    case ReleaseOp(claim) => Release(s, claim)
    case PersistOp(claim, at) => Persist(s, claim, at).0
  }

  function DoAll(s: Lease, interval: int, timeout: int, ops: seq<Op>): Lease
    decreases |ops|
  {
    if ops == [] then s else DoAll(Do(s, interval, timeout, ops[0]), interval, timeout, ops[1..])
  }

  const NO_LEASE := Lease(None, [])

  /** A granted claim raises the generation; nothing lowers it. */
  lemma {:induction false} GenerationsRise(s: Lease, interval: int, timeout: int, ops: seq<Op>)
    ensures Generation(DoAll(s, interval, timeout, ops)) >= Generation(s)
    decreases |ops|
  {
    if ops != [] {
      GenerationsRise(Do(s, interval, timeout, ops[0]), interval, timeout, ops[1..]);
    }
  }

  /** Fencing: once a later claim was granted, the earlier one can neither extend, persist nor release, ever again. */
  lemma {:induction false} SupersededIsFenced(s: Lease, interval: int, timeout: int, now: int, token: string, ops: seq<Op>, superseded: PollClaim, at: int)
    requires superseded.generation <= Generation(s) && Claim(s, now, interval, timeout, token).1.Some?
    ensures var later := DoAll(Claim(s, now, interval, timeout, token).0, interval, timeout, ops);
            && !Heartbeat(later, superseded, at, timeout).1
            && !Persist(later, superseded, at).1
            && Release(later, superseded) == later
  {
    hide DoAll;
    GenerationsRise(Claim(s, now, interval, timeout, token).0, interval, timeout, ops);
  }

  /** The clock reads of a run do not run backwards: a poll is evaluated no earlier than its claim was taken. */
  predicate InTime(s: Lease, op: Op) {
    op.PersistOp? && Names(s, op.claim) && s.row.value.started.Some? ==> op.at >= s.row.value.started.value
  }

  ghost predicate AllInTime(s: Lease, interval: int, timeout: int, ops: seq<Op>)
    decreases |ops|
  {
    ops == [] || (InTime(s, ops[0]) && AllInTime(Do(s, interval, timeout, ops[0]), interval, timeout, ops[1..]))
  }

  /** Persisted polls carry rising generations, none above the highest issued, and lie at least the interval apart. */
  ghost predicate LeaseOk(s: Lease, interval: int) {
    && (forall i :: 0 <= i < |s.polls| ==> s.polls[i].generation <= Generation(s))
    && (forall i, j :: 0 <= i < j < |s.polls| ==> s.polls[i].generation < s.polls[j].generation)
    && (forall i :: 0 < i < |s.polls| ==> s.polls[i].at - s.polls[i - 1].at >= interval)
    && (s.row.None? ==> s.polls == [])
    && (s.row.Some? ==>
          var row := s.row.value;
          && row.lastCompleted == (if s.polls == [] then None else Some(Last(s.polls).at))
          && (row.token.Some? <==> row.started.Some?) && (row.token.Some? <==> row.leaseExpires.Some?)
          && (row.token.Some? && s.polls != [] ==>
                Last(s.polls).generation < row.generation && row.started.value - Last(s.polls).at >= interval))
  }

  lemma DoKeepsLease(s: Lease, interval: int, timeout: int, op: Op)
    requires LeaseOk(s, interval) && InTime(s, op)
    ensures LeaseOk(Do(s, interval, timeout, op), interval)
  {
    hide Persist, Claim;
    match op
    case ClaimOp(now, token) => ClaimKeepsLease(s, interval, timeout, now, token);
    case HeartbeatOp(claim, now) =>
    case ReleaseOp(claim) =>
    case PersistOp(claim, at) => PersistKeepsLease(s, interval, claim, at);
  }

  lemma PersistKeepsLease(s: Lease, interval: int, claim: PollClaim, at: int)
    requires LeaseOk(s, interval) && InTime(s, PersistOp(claim, at))
    ensures LeaseOk(Persist(s, claim, at).0, interval)
  {
    if Holds(s, claim, at) {
      var later := Persist(s, claim, at).0;
      assert forall i :: 0 <= i < |s.polls| ==> later.polls[i] == s.polls[i];
      assert s.polls != [] ==> s.polls[|s.polls| - 1] == Last(s.polls);
    }
  }

  lemma ClaimKeepsLease(s: Lease, interval: int, timeout: int, now: int, token: string)
    requires LeaseOk(s, interval)
    ensures LeaseOk(Claim(s, now, interval, timeout, token).0, interval)
  {
  }

  /** With a clock that does not run backwards consecutive completed polls are at least the interval apart. */
  lemma {:induction false} PollsAreSpaced(s: Lease, interval: int, timeout: int, ops: seq<Op>)
    requires LeaseOk(s, interval) && AllInTime(s, interval, timeout, ops)
    ensures LeaseOk(DoAll(s, interval, timeout, ops), interval)
    decreases |ops|
  {
    hide Do, LeaseOk;
    if ops != [] {
      DoKeepsLease(s, interval, timeout, ops[0]);
      PollsAreSpaced(Do(s, interval, timeout, ops[0]), interval, timeout, ops[1..]);
    }
  }

  /** When a poll is persisted its claim is the highest generation ever issued. */
  lemma PersistedIsNewest(s: Lease, claim: PollClaim, at: int)
    requires Persist(s, claim, at).1
    ensures claim.generation == Generation(s) && Last(Persist(s, claim, at).0.polls) == Completed(Generation(s), at)
  {
  }

  // ---------- whatever the clock does ----------

  /** What holds without any assumption on the clock: a claim was taken at least the interval after the stored last poll. */
  ghost predicate ClaimsDue(s: Lease, interval: int) {
    && (s.row.None? ==> s.polls == [])
    && (s.row.Some? ==>
          var row := s.row.value;
          && row.lastCompleted == (if s.polls == [] then None else Some(Last(s.polls).at))
          && (row.token.Some? <==> row.started.Some?)
          && (row.token.Some? && s.polls != [] ==> row.started.value - Last(s.polls).at >= interval))
  }

  ghost predicate Spaced(polls: seq<Completed>, interval: int) {
    forall i :: 0 < i < |polls| ==> polls[i].at - polls[i - 1].at >= interval
  }

  /** A persist that is granted: the clock has stepped back since its claim by no more than the claim came late. */
  predicate WithinSlack(s: Lease, interval: int, op: Op) {
    op.PersistOp? && Persist(s, op.claim, op.at).1 && s.polls != [] && s.row.value.started.Some? ==>
      s.row.value.started.value - op.at <= s.row.value.started.value - Last(s.polls).at - interval
  }

  ghost predicate AllWithinSlack(s: Lease, interval: int, timeout: int, ops: seq<Op>)
    decreases |ops|
  {
    ops == [] || (WithinSlack(s, interval, ops[0]) && AllWithinSlack(Do(s, interval, timeout, ops[0]), interval, timeout, ops[1..]))
  }

  lemma DoKeepsDue(s: Lease, interval: int, timeout: int, op: Op)
    requires ClaimsDue(s, interval)
    ensures ClaimsDue(Do(s, interval, timeout, op), interval)
    ensures s.polls <= Do(s, interval, timeout, op).polls
    ensures Spaced(s.polls, interval) ==>
              (Spaced(Do(s, interval, timeout, op).polls, interval) <==> WithinSlack(s, interval, op))
  {
    match op
    case PersistOp(claim, at) => PersistSpaced(s, interval, claim, at);
    case _ =>
  }

  lemma PersistSpaced(s: Lease, interval: int, claim: PollClaim, at: int)
    requires ClaimsDue(s, interval)
    ensures ClaimsDue(Persist(s, claim, at).0, interval) && s.polls <= Persist(s, claim, at).0.polls
    ensures Spaced(s.polls, interval) ==>
              (Spaced(Persist(s, claim, at).0.polls, interval) <==> WithinSlack(s, interval, PersistOp(claim, at)))
  {
    var later := Persist(s, claim, at).0;
    if Persist(s, claim, at).1 && s.polls != [] {
      assert later.polls[|s.polls|] == Completed(claim.generation, at) && later.polls[|s.polls| - 1] == Last(s.polls);
      assert forall i :: 0 <= i < |s.polls| ==> later.polls[i] == s.polls[i];
    }
  }

  /** Over any run, with any clock: the persisted polls are spaced if and only if every granted persist is within its slack. */
  lemma {:induction false} PollsAreSpacedWhen(s: Lease, interval: int, timeout: int, ops: seq<Op>)
    requires ClaimsDue(s, interval) && Spaced(s.polls, interval)
    ensures Spaced(DoAll(s, interval, timeout, ops).polls, interval) <==> AllWithinSlack(s, interval, timeout, ops)
    decreases |ops|
  {
    hide Do, ClaimsDue, Spaced, WithinSlack;
    if ops != [] {
      DoKeepsDue(s, interval, timeout, ops[0]);
      var next := Do(s, interval, timeout, ops[0]);
      if Spaced(next.polls, interval) {
        PollsAreSpacedWhen(next, interval, timeout, ops[1..]);
      } else {
        PollsOnlyGrow(next, interval, timeout, ops[1..]);
        UnspacedStays(next.polls, DoAll(next, interval, timeout, ops[1..]).polls, interval);
      }
    }
  }

  lemma {:induction false} PollsOnlyGrow(s: Lease, interval: int, timeout: int, ops: seq<Op>)
    requires ClaimsDue(s, interval)
    ensures s.polls <= DoAll(s, interval, timeout, ops).polls
    decreases |ops|
  {
    hide Do, ClaimsDue;
    if ops != [] {
      DoKeepsDue(s, interval, timeout, ops[0]);
      PollsOnlyGrow(Do(s, interval, timeout, ops[0]), interval, timeout, ops[1..]);
    }
  }

  lemma {:induction false} UnspacedStays(polls: seq<Completed>, later: seq<Completed>, interval: int)
    requires polls <= later && !Spaced(polls, interval)
    ensures !Spaced(later, interval)
  {
    var i :| 0 < i < |polls| && polls[i].at - polls[i - 1].at < interval;
    assert later[i] == polls[i] && later[i - 1] == polls[i - 1];
  }

  /** With a clock that steps back the code does not keep the interval: a poll claimed in time is evaluated too early. */
  lemma {:induction false} SteppingBackBreaksSpacing(interval: int, timeout: int)
    requires interval >= 1 && timeout >= 1
    ensures var ops := [ClaimOp(0, "a"), PersistOp(PollClaim("a", 1), 0), ClaimOp(interval, "b"), PersistOp(PollClaim("b", 2), 0)];
            DoAll(NO_LEASE, interval, timeout, ops).polls == [Completed(1, 0), Completed(2, 0)]
  {
    hide DoAll;
    var a, b, c, d := ClaimOp(0, "a"), PersistOp(PollClaim("a", 1), 0), ClaimOp(interval, "b"), PersistOp(PollClaim("b", 2), 0);
    var one := Do(NO_LEASE, interval, timeout, a);
    var two := Do(one, interval, timeout, b);
    var three := Do(two, interval, timeout, c);
    DoFour(NO_LEASE, interval, timeout, a, b, c, d);
  }

  lemma {:induction false} DoFour(s: Lease, interval: int, timeout: int, a: Op, b: Op, c: Op, d: Op)
    ensures DoAll(s, interval, timeout, [a, b, c, d])
         == Do(Do(Do(Do(s, interval, timeout, a), interval, timeout, b), interval, timeout, c), interval, timeout, d)
  {
    hide Do;
    assert [a, b, c, d][1..] == [b, c, d] && [b, c, d][1..] == [c, d] && [c, d][1..] == [d] && [d][1..] == [];
    assert DoAll(s, interval, timeout, [a, b, c, d]) == DoAll(Do(s, interval, timeout, a), interval, timeout, [b, c, d]);
    var one := Do(s, interval, timeout, a);
    assert DoAll(one, interval, timeout, [b, c, d]) == DoAll(Do(one, interval, timeout, b), interval, timeout, [c, d]);
    var two := Do(one, interval, timeout, b);
    assert DoAll(two, interval, timeout, [c, d]) == DoAll(Do(two, interval, timeout, c), interval, timeout, [d]);
  }

  // ---------- one poll of the scheduler ----------

  /** The clock reads of one poll, and whether its source and its checks succeed. */
  datatype Poll = Poll(claimed: int, read: int, evaluated: int, checked: int, alerted: int, sourceOk: bool, snapshotOk: bool)

  datatype PollOutcome = NotDue | Polled | PollFailed

  /** Claim, read, three heartbeats around the evaluation, persist; any failure gives the claim back. */
  function PollRun(s: Lease, interval: int, timeout: int, token: string, poll: Poll): (Lease, PollOutcome) {
    var claimed := Claim(s, poll.claimed, interval, timeout, token);
    if claimed.1.None? then (s, NotDue)
    else
      var claim := claimed.1.value;
      var one := Heartbeat(claimed.0, claim, poll.read, timeout);
      var two := Heartbeat(one.0, claim, poll.checked, timeout);
      var three := Heartbeat(two.0, claim, poll.alerted, timeout);
      if !poll.sourceOk then (Release(claimed.0, claim), PollFailed)
      else if !one.1 || !poll.snapshotOk then (Release(one.0, claim), PollFailed)
      else if !two.1 then (Release(two.0, claim), PollFailed)
      else if !three.1 then (Release(three.0, claim), PollFailed)
      else
        var saved := Persist(three.0, claim, poll.evaluated);
        if !saved.1 then (Release(three.0, claim), PollFailed) else (saved.0, Polled)
  }

  /** A poll that was due ends with no claim held, and adds a completed poll exactly when it reports one. */
  lemma PollLeavesNothingHeld(s: Lease, interval: int, timeout: int, token: string, poll: Poll)
    ensures var r := PollRun(s, interval, timeout, token, poll);
            && (r.1 != NotDue ==> r.0.row.Some? && r.0.row.value.token.None? && Generation(r.0) == Generation(s) + 1)
            && r.0.polls == (if r.1 == Polled then s.polls + [Completed(Generation(s) + 1, poll.evaluated)] else s.polls)
  {
  }

  class MonitoringStore {
    var row: Option<SchedulerRow>
    ghost var polls: seq<Completed>

    constructor ()
      ensures View() == NO_LEASE
    {
      row, polls := None, [];
    }

    ghost function View(): Lease
      reads this
    {
      Lease(row, polls)
    }

    method ClaimPoll(now: int, interval: int, timeout: int, token: string) returns (claim: Option<PollClaim>)
      modifies this`row
      ensures (View(), claim) == Claim(old(View()), now, interval, timeout, token)
    {
      if row.None? {
        row := Some(SchedulerRow(None, Some(token), Some(now), 1, Some(now + timeout)));
        return Some(PollClaim(token, 1));
      }
      var current := row.value;
      if current.token.Some? && current.leaseExpires.Some? && now < current.leaseExpires.value {
        return None;
      }
      if current.lastCompleted.Some? && now - current.lastCompleted.value < interval {
        return None;
      }
      var next := current.generation + 1;
      row := Some(current.(token := Some(token), started := Some(now), generation := next, leaseExpires := Some(now + timeout)));
      claim := Some(PollClaim(token, next));
    }

    predicate IsHeld(claim: PollClaim, now: int)
      reads this
      ensures IsHeld(claim, now) == Holds(View(), claim, now)
    {
      && row.Some? && row.value.token == Some(claim.token) && row.value.generation == claim.generation
      && row.value.leaseExpires.Some? && now < row.value.leaseExpires.value
    }

    method HeartbeatPoll(claim: PollClaim, now: int, timeout: int) returns (alive: bool)
      modifies this`row
      ensures (View(), alive) == Heartbeat(old(View()), claim, now, timeout)
    {
      alive := IsHeld(claim, now);
      if alive {
        row := Some(row.value.(leaseExpires := Some(now + timeout)));
      }
    }

    method ReleasePoll(claim: PollClaim)
      modifies this`row
      ensures View() == Release(old(View()), claim)
    {
      if row.Some? && row.value.token == Some(claim.token) && row.value.generation == claim.generation {
        row := Some(row.value.(token := None, started := None, leaseExpires := None));
      }
    }

    method PersistPoll(claim: PollClaim, completedAt: int) returns (saved: bool)
      modifies this
      ensures (View(), saved) == Persist(old(View()), claim, completedAt)
    {
      saved := IsHeld(claim, completedAt);
      if saved {
        row := Some(row.value.(lastCompleted := Some(completedAt), token := None, started := None, leaseExpires := None));
        polls := polls + [Completed(claim.generation, completedAt)];
      }
    }
  }

  class MonitoringScheduler {
    const store: MonitoringStore
    const interval: int
    const timeout: int

    constructor (store: MonitoringStore, interval: int, timeout: int)
      ensures this.store == store && this.interval == interval && this.timeout == timeout
    {
      this.store, this.interval, this.timeout := store, interval, timeout;
    }

    method RunPoll(token: string, poll: Poll) returns (outcome: PollOutcome)
      modifies store
      ensures (store.View(), outcome) == PollRun(old(store.View()), interval, timeout, token, poll)
    {
      hide Claim, Heartbeat, Persist, Release;
      var claimed := store.ClaimPoll(poll.claimed, interval, timeout, token);
      if claimed.None? {
        NotDueKeeps(old(store.View()), poll.claimed, interval, timeout, token);
        return NotDue;
      }
      var claim := claimed.value;
      if poll.sourceOk {
        var alive := store.HeartbeatPoll(claim, poll.read, timeout);
        if alive && poll.snapshotOk {
          alive := store.HeartbeatPoll(claim, poll.checked, timeout);
          if alive {
            alive := store.HeartbeatPoll(claim, poll.alerted, timeout);
            if alive {
              PersistFails(store.View(), claim, poll.evaluated);
              var saved := store.PersistPoll(claim, poll.evaluated);
              if saved {
                return Polled;
              }
            }
          }
        }
      }
      store.ReleasePoll(claim);
      outcome := PollFailed;
    }
  }

  lemma NotDueKeeps(s: Lease, now: int, interval: int, timeout: int, token: string)
    ensures Claim(s, now, interval, timeout, token).1.None? ==> Claim(s, now, interval, timeout, token).0 == s
  {
  }

  lemma PersistFails(s: Lease, claim: PollClaim, at: int)
    ensures !Persist(s, claim, at).1 ==> Persist(s, claim, at).0 == s
  {
  }

  // ---------- exactly when each transaction is granted ----------

  /** The row is claimed and its lease has not run out. */
  predicate Leased(s: Lease, now: int) {
    s.row.Some? && s.row.value.token.Some? && s.row.value.leaseExpires.Some? && now < s.row.value.leaseExpires.value
  }

  /** The row carries this claim, and its lease has not run out. */
  predicate LeasedBy(s: Lease, claim: PollClaim, now: int) {
    Leased(s, now) && s.row.value.token.value == claim.token && s.row.value.generation == claim.generation
  }

  /** A poll is claimed if and only if nobody's lease runs and the interval since the last completed poll has passed. */
  lemma ClaimsWhen(s: Lease, now: int, interval: int, timeout: int, token: string)
    ensures var r := Claim(s, now, interval, timeout, token);
            && (r.1.Some? <==>
                  && !Leased(s, now)
                  && (s.row.Some? && s.row.value.lastCompleted.Some? ==> now - s.row.value.lastCompleted.value >= interval))
            && (r.1.None? ==> r.0 == s)
            && (r.1.Some? ==>
                  && r.1.value == PollClaim(token, Generation(s) + 1) && r.0.polls == s.polls
                  && r.0.row == Some(SchedulerRow(if s.row.Some? then s.row.value.lastCompleted else None, Some(token), Some(now),
                                                  Generation(s) + 1, Some(now + timeout))))
  {
  }

  /** Only the claim whose lease runs extends it, completes a poll, or, in time or late, gives the row back. */
  lemma HoldersActWhen(s: Lease, claim: PollClaim, now: int, timeout: int)
    ensures Heartbeat(s, claim, now, timeout).1 <==> LeasedBy(s, claim, now)
    ensures Persist(s, claim, now).1 <==> LeasedBy(s, claim, now)
    ensures Heartbeat(s, claim, now, timeout).0
         == if LeasedBy(s, claim, now) then s.(row := Some(s.row.value.(leaseExpires := Some(now + timeout)))) else s
    ensures Persist(s, claim, now).0
         == if LeasedBy(s, claim, now)
            then Lease(Some(SchedulerRow(Some(now), None, None, claim.generation, None)), s.polls + [Completed(claim.generation, now)])
            else s
    ensures Release(s, claim)
         == if s.row.Some? && s.row.value.token == Some(claim.token) && s.row.value.generation == claim.generation
            then s.(row := Some(SchedulerRow(s.row.value.lastCompleted, None, None, claim.generation, None))) else s
  {
  }
}
