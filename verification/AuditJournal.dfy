/** The hash-chained audit journal and its signed anchors. */
module AuditJournal {
  import opened Basics

  datatype Owner = Owner(run: string, schema: string, policy: string)

  /** A collision-free hash that never yields the genesis value: it keeps what it was computed from. */
  datatype Hash =
    | Genesis
    | HashOf(sequence: int, owner: Owner, at: int, kind: string, payload: string, previous: Hash)

  datatype Row = Row(sequence: int, owner: Owner, at: int, kind: string, payload: string, previous: Hash, hash: Hash)

  datatype RunState = RunState(owner: Owner, isSealed: bool, finalSequence: int, finalHash: Hash)

  /** Rows in sequence order, and the single state row. */
  datatype Journal = Journal(owner: Owner, state: RunState, rows: seq<Row>)

  datatype Verification = Verification(finalSequence: int, finalHash: Hash)

  function NewJournal(owner: Owner): Journal {
    Journal(owner, RunState(owner, false, 0, Genesis), [])
  }

  function HashRow(row: Row): Hash {
    HashOf(row.sequence, row.owner, row.at, row.kind, row.payload, row.previous)
  }

  // ---------- verification ----------

  /** One link of the chain: next sequence number, previous hash, owner, and a hash over all of it. */
  predicate Links(owner: Owner, row: Row, sequence: int, previous: Hash) {
    row.sequence == sequence && row.previous == previous && row.owner == owner && row.hash == HashRow(row)
  }

  function TailHash(rows: seq<Row>): Hash {
    if rows == [] then Genesis else Last(rows).hash
  }

  predicate Chained(owner: Owner, rows: seq<Row>) {
    rows == []
    || (Chained(owner, rows[..|rows| - 1]) && Links(owner, Last(rows), |rows|, TailHash(rows[..|rows| - 1])))
  }

  function Verify(j: Journal): Result<Verification> {
    if j.state.owner != j.owner then Rejected("The audit journal owner metadata changed.")
    else if !Chained(j.owner, j.rows) then Rejected("The audit chain is broken.")
    else if j.state.finalSequence != |j.rows| || j.state.finalHash != TailHash(j.rows) then
      Rejected("The audit anchor does not match.")
    else Ok(Verification(|j.rows|, TailHash(j.rows)))
  }

  // ---------- append and seal ----------

  function NextRow(j: Journal, kind: string, payload: string, at: int): Row {
    var row := Row(|j.rows| + 1, j.owner, at, kind, payload, TailHash(j.rows), Genesis);
    row.(hash := HashRow(row))
  }

  predicate TailMatches(j: Journal) {
    var committed := if j.rows == [] then 0 else Last(j.rows).sequence;
    j.state.finalSequence == committed && j.state.finalHash == TailHash(j.rows)
  }

  function Append(j: Journal, kind: string, payload: string, at: int): (Journal, Result<Row>) {
    if kind == "" || |kind| > 128 then (j, Rejected("The audit event type is invalid."))
    else if j.state.isSealed then (j, Rejected("The audit journal is sealed."))
    else if !TailMatches(j) then (j, Rejected("The current audit tail does not match its durable anchor."))
    else if !Chained(j.owner, j.rows) then (j, Rejected("The audit chain is broken."))
    else
      var row := NextRow(j, kind, payload, at);
      (j.(rows := j.rows + [row], state := j.state.(finalSequence := row.sequence, finalHash := row.hash)), Ok(row))
  }

  function Seal(j: Journal): (Journal, Result<Verification>) {
    var verified := Verify(j);
    if verified.Rejected? then (j, verified)
    else if j.state.isSealed then (j, Rejected("The audit journal is sealed."))
    else if j.rows == [] then (j, Rejected("An empty audit journal cannot be sealed."))
    else (j.(state := j.state.(isSealed := true, finalSequence := |j.rows|, finalHash := TailHash(j.rows))), verified)
  }

  // ---------- anchors ----------

  datatype Anchor = Anchor(owner: Owner, finalSequence: int, finalHash: Hash, at: int, keyId: string)

  /** A signature keeps the key and the signed fields. */
  datatype Signed = Signed(anchor: Anchor, key: string, over: Anchor)

  datatype Signer = Signer(keyId: string, key: string)

  function CreateAnchor(j: Journal, signer: Signer, at: int): Result<Signed> {
    var verified := Verify(j);
    if verified.Rejected? then Rejected(verified.reason)
    else
      var anchor := Anchor(j.owner, verified.value.finalSequence, verified.value.finalHash, at, signer.keyId);
      Ok(Signed(anchor, signer.key, anchor))
  }

  function VerifyAnchor(j: Journal, signed: Signed, signer: Signer, now: int, maximumAge: int): Result<Verification> {
    var verified := Verify(j);
    var anchor := signed.anchor;
    if maximumAge <= 0 then Rejected("Audit anchor maximum age must be positive.")
    else if verified.Rejected? then verified
    else if anchor.owner != j.owner || anchor.finalSequence != verified.value.finalSequence
            || anchor.finalHash != verified.value.finalHash || anchor.keyId != signer.keyId
    then Rejected("The signed audit anchor does not match the current journal.")
    else if now - anchor.at < 0 || now - anchor.at > maximumAge then
      Rejected("The signed audit anchor is outside its approved period.")
    else if signed.key != signer.key || signed.over != anchor then Rejected("The signed audit anchor signature is invalid.")
    else verified
  }

  // ---------- the journal object ----------

  class SQLiteAuditJournal {
    const owner: Owner
    var state: RunState
    var rows: seq<Row>

    constructor (owner: Owner)
      ensures View() == NewJournal(owner)
    {
      this.owner := owner;
      state, rows := RunState(owner, false, 0, Genesis), [];
    }

    function View(): Journal
      reads this
    {
      Journal(owner, state, rows)
    }

    /** Walks the rows with a running previous hash and an expected sequence number. */
    method VerifyRows() returns (result: Result<Verification>)
      ensures result == if Chained(owner, rows) then Ok(Verification(|rows|, TailHash(rows)))
                        else Rejected("The audit chain is broken.")
    {
      var previous, expected := Genesis, 1;
      for i := 0 to |rows|
        invariant expected == i + 1 && previous == TailHash(rows[..i])
        invariant Chained(owner, rows[..i])
      {
        var row := rows[i];
        assert rows[..i + 1][..i] == rows[..i] && Last(rows[..i + 1]) == row;
        if row.sequence != expected || row.previous != previous || row.owner != owner || row.hash != HashRow(row) {
          PrefixChained(owner, rows, i + 1);
          return Rejected("The audit chain is broken.");
        }
        previous, expected := row.hash, expected + 1;
      }
      assert rows[..|rows|] == rows;
      result := Ok(Verification(|rows|, previous));
    }

    method VerifyJournal() returns (result: Result<Verification>)
      ensures result == Verify(View())
    {
      if state.owner != owner {
        return Rejected("The audit journal owner metadata changed.");
      }
      result := VerifyRows();
      if result.Ok? && (state.finalSequence != result.value.finalSequence || state.finalHash != result.value.finalHash) {
        result := Rejected("The audit anchor does not match.");
      }
    }

    method AppendEvent(kind: string, payload: string, at: int) returns (result: Result<Row>)
      modifies this
      ensures (View(), result) == Append(old(View()), kind, payload, at)
    {
      if kind == "" || |kind| > 128 {
        return Rejected("The audit event type is invalid.");
      }
      if state.isSealed {
        return Rejected("The audit journal is sealed.");
      }
      if !TailMatches(View()) {
        return Rejected("The current audit tail does not match its durable anchor.");
      }
      var verified := VerifyRows();
      if verified.Rejected? {
        return Rejected("The audit chain is broken.");
      }
      var previous := TailHash(rows);
      var sequence := |rows| + 1;
      var row := Row(sequence, owner, at, kind, payload, previous, HashOf(sequence, owner, at, kind, payload, previous));
      rows := rows + [row];
      state := state.(finalSequence := sequence, finalHash := row.hash);
      result := Ok(row);
    }

    method SealJournal() returns (result: Result<Verification>)
      modifies this`state
      ensures (View(), result) == Seal(old(View()))
    {
      result := VerifyJournal();
      if result.Rejected? {
        return;
      }
      if state.isSealed {
        return Rejected("The audit journal is sealed.");
      }
      if rows == [] {
        return Rejected("An empty audit journal cannot be sealed.");
      }
      state := state.(isSealed := true, finalSequence := result.value.finalSequence, finalHash := result.value.finalHash);
    }
  }

  // ---------- what the chain guarantees ----------

  /** Every prefix of a chain is a chain. */
  lemma {:induction false} PrefixChained(owner: Owner, rows: seq<Row>, n: nat)
    requires n <= |rows|
    ensures Chained(owner, rows) ==> Chained(owner, rows[..n])
    decreases |rows|
  {
    if n < |rows| {
      PrefixChained(owner, rows[..|rows| - 1], n);
      assert rows[..|rows| - 1][..n] == rows[..n];
    } else {
      assert rows[..n] == rows;
    }
  }

  /** A granted append or seal keeps the journal verifiable. */
  lemma AppendKeepsVerified(j: Journal, kind: string, payload: string, at: int)
    requires Verify(j).Ok?
    ensures Verify(Append(j, kind, payload, at).0).Ok?
    ensures Append(j, kind, payload, at).1.Ok? <==> !j.state.isSealed && 0 < |kind| <= 128
  {
    var later := Append(j, kind, payload, at).0;
    if j.rows != [] {
      TailOfChain(j.owner, j.rows);
    }
    if later != j {
      assert later.rows[..|j.rows|] == j.rows;
    }
  }

  lemma {:induction false} TailOfChain(owner: Owner, rows: seq<Row>)
    requires Chained(owner, rows) && rows != []
    ensures Last(rows).sequence == |rows|
  {
  }

  datatype Op = AppendOp(kind: string, payload: string, at: int) | SealOp

  function Do(j: Journal, op: Op): Journal {
    match op
    case AppendOp(kind, payload, at) => Append(j, kind, payload, at).0
    case SealOp => Seal(j).0
  }

  function DoAll(j: Journal, ops: seq<Op>): Journal
    decreases |ops|
  {
    if ops == [] then j else DoAll(Do(j, ops[0]), ops[1..])
  }

  /** Every journal reached by appending and sealing verifies, and nothing is appended after the seal. */
  lemma {:induction false} ReachableVerifies(j: Journal, ops: seq<Op>)
    requires Verify(j).Ok?
    ensures Verify(DoAll(j, ops)).Ok? && DoAll(j, ops).owner == j.owner
    ensures j.rows <= DoAll(j, ops).rows && (j.state.isSealed ==> DoAll(j, ops) == j)
    decreases |ops|
  {
    hide Verify, Append, Seal;
    if ops != [] {
      DoVerifies(j, ops[0]);
      ReachableVerifies(Do(j, ops[0]), ops[1..]);
    }
  }

  lemma DoVerifies(j: Journal, op: Op)
    requires Verify(j).Ok?
    ensures Verify(Do(j, op)).Ok? && Do(j, op).owner == j.owner && j.rows <= Do(j, op).rows
    ensures j.state.isSealed ==> Do(j, op) == j
  {
    if op.AppendOp? {
      AppendKeepsVerified(j, op.kind, op.payload, op.at);
    }
  }

  /** Tamper evidence: chains of one owner with the same final hash are the same chain, event by event. */
  lemma {:induction false} SameHashSameChain(owner: Owner, one: seq<Row>, two: seq<Row>)
    requires Chained(owner, one) && Chained(owner, two) && TailHash(one) == TailHash(two)
    ensures one == two
    decreases |one|
  {
    if one != [] && two != [] {
      var a, b := Last(one), Last(two);
      assert a.previous == b.previous && a == b;
      SameHashSameChain(owner, one[..|one| - 1], two[..|two| - 1]);
      assert one == one[..|one| - 1] + [a] && two == two[..|two| - 1] + [b];
    }
  }

  lemma TamperEvident(one: Journal, two: Journal)
    requires Verify(one).Ok? && Verify(two).Ok? && one.owner == two.owner
    requires Verify(one).value.finalHash == Verify(two).value.finalHash
    ensures one.rows == two.rows && Verify(one) == Verify(two)
  {
    SameHashSameChain(one.owner, one.rows, two.rows);
  }

  /** An anchor speaks for exactly one content: a journal it verifies has the rows it was taken from. */
  lemma AnchorPinsContent(j: Journal, signer: Signer, at: int, other: Journal, reader: Signer, now: int, maximumAge: int)
    requires CreateAnchor(j, signer, at).Ok?
    requires VerifyAnchor(other, CreateAnchor(j, signer, at).value, reader, now, maximumAge).Ok?
    ensures other.rows == j.rows && other.owner == j.owner && reader == signer && at <= now <= at + maximumAge
  {
    TamperEvident(j, other);
  }

  /** Once anything was appended after it was taken, an anchor no longer verifies, whatever the signer and the clock say. */
  lemma {:induction false} AnchorExpiresOnAppend(j: Journal, signer: Signer, at: int, ops: seq<Op>, reader: Signer, now: int, maximumAge: int)
    requires CreateAnchor(j, signer, at).Ok? && |DoAll(j, ops).rows| > |j.rows|
    ensures VerifyAnchor(DoAll(j, ops), CreateAnchor(j, signer, at).value, reader, now, maximumAge).Rejected?
  {
    hide DoAll;
    var later := DoAll(j, ops);
    if VerifyAnchor(later, CreateAnchor(j, signer, at).value, reader, now, maximumAge).Ok? {
      AnchorPinsContent(j, signer, at, later, reader, now, maximumAge);
    }
  }

  // ---------- exactly when each check passes ----------

  /** Row `i` is the next of its owner's chain: numbered, linked to the row before it, and hashed over all of that. */
  predicate LinkedAt(owner: Owner, rows: seq<Row>, i: nat)
    requires i < |rows|
  {
    && rows[i].sequence == i + 1 && rows[i].owner == owner
    && rows[i].previous == (if i == 0 then Genesis else rows[i - 1].hash)
    && rows[i].hash == HashOf(rows[i].sequence, rows[i].owner, rows[i].at, rows[i].kind, rows[i].payload, rows[i].previous)
  }

  lemma {:induction false} ChainedWhen(owner: Owner, rows: seq<Row>)
    ensures Chained(owner, rows) <==> forall i :: 0 <= i < |rows| ==> LinkedAt(owner, rows, i)
  {
    if rows != [] {
      var n, before := |rows| - 1, rows[..|rows| - 1];
      ChainedWhen(owner, before);
      assert forall i :: 0 <= i < n ==> LinkedAt(owner, before, i) == LinkedAt(owner, rows, i);
      assert LinkedAt(owner, rows, n) <==> Links(owner, Last(rows), |rows|, TailHash(before));
      hide LinkedAt;
    }
  }

  /** A journal verifies if and only if its state names its owner and its tail, and every row is linked. */
  lemma VerifiesWhen(j: Journal)
    ensures Verify(j).Ok?
       <==> && j.state.owner == j.owner && (forall i :: 0 <= i < |j.rows| ==> LinkedAt(j.owner, j.rows, i))
            && j.state.finalSequence == |j.rows|
            && j.state.finalHash == (if j.rows == [] then Genesis else j.rows[|j.rows| - 1].hash)
    ensures Verify(j).Ok? ==> Verify(j).value == Verification(j.state.finalSequence, j.state.finalHash)
  {
    ChainedWhen(j.owner, j.rows);
    hide Chained, LinkedAt;
  }

  /**
   * A journal takes an event if and only if the event has a name, the journal is not sealed, its state names its tail, and every
   * row is linked; the event becomes one linked row and the new tail, and anything else leaves the journal as it is.
   */
  lemma {:induction false} AppendsWhen(j: Journal, kind: string, payload: string, at: int)
    ensures var r, n := Append(j, kind, payload, at), |j.rows|;
            && (r.1.Ok? <==>
                  && 1 <= |kind| <= 128 && !j.state.isSealed
                  && j.state.finalSequence == (if n == 0 then 0 else j.rows[n - 1].sequence)
                  && j.state.finalHash == (if n == 0 then Genesis else j.rows[n - 1].hash)
                  && forall i :: 0 <= i < n ==> LinkedAt(j.owner, j.rows, i))
            && (r.1.Rejected? ==> r.0 == j)
            && (r.1.Ok? ==>
                  && |r.0.rows| == n + 1 && r.0.rows[..n] == j.rows && LinkedAt(j.owner, r.0.rows, n)
                  && r.0.rows[n].kind == kind && r.0.rows[n].payload == payload && r.0.rows[n].at == at && r.1.value == r.0.rows[n]
                  && r.0.state == j.state.(finalSequence := n + 1, finalHash := r.0.rows[n].hash) && r.0.owner == j.owner)
  {
    ChainedWhen(j.owner, j.rows);
    hide Chained;
  }

  /** A journal is sealed if and only if it verifies, has rows and is not sealed yet. */
  lemma SealsWhen(j: Journal)
    ensures var r := Seal(j);
            && (r.1.Ok? <==> Verify(j).Ok? && j.rows != [] && !j.state.isSealed)
            && (r.1.Rejected? ==> r.0 == j)
            && (r.1.Ok? ==> r.0 == j.(state := j.state.(isSealed := true)) && r.1 == Verify(j))
  {
    hide Chained;
  }

  /** An anchor is accepted if and only if it names this verified journal's tail, this key, a permitted age, and is signed over itself. */
  lemma AnchorAcceptedWhen(j: Journal, signed: Signed, signer: Signer, now: int, maximumAge: int)
    ensures VerifyAnchor(j, signed, signer, now, maximumAge).Ok?
       <==> && maximumAge > 0 && Verify(j).Ok?
            && signed.anchor.owner == j.owner && signed.anchor.keyId == signer.keyId
            && signed.anchor.finalSequence == |j.rows|
            && signed.anchor.finalHash == (if j.rows == [] then Genesis else j.rows[|j.rows| - 1].hash)
            && 0 <= now - signed.anchor.at <= maximumAge
            && signed.key == signer.key && signed.over == signed.anchor
  {
    hide Chained;
  }
}
