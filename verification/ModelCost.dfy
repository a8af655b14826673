/** The model-cost ledger: every model call is reserved at its worst price and charged once. */
module ModelCost {
  import opened Basics

  /** Roubles are exact; a tariff is in dollars for a million tokens. */
  datatype Rates = Rates(input: real, output: real)

  datatype Config = Config(limit: real, warningPercent: real, exchangeRate: real, tariffs: map<(string, string), Rates>) {
    predicate Valid() {
      && limit > 0.0 && 0.0 < warningPercent < 100.0 && exchangeRate > 0.0 && tariffs != map[]
      && forall key :: key in tariffs ==> tariffs[key].input >= 0.0 && tariffs[key].output >= 0.0
    }
  }

  datatype Status = Reserved | Settled | Failed

  datatype Call = Call(
    id: string, provider: string, model: string, maxInput: int, maxOutput: int,
    reserved: real, charged: Option<real>, status: Status, synthetic: bool)

  datatype Reservation = Reservation(
    id: string, provider: string, model: string, maxInput: int, maxOutput: int, reserved: real, warning: bool)

  datatype Usage = Usage(provider: string, model: string, input: int, output: int)

  function Calculate(c: Config, provider: string, model: string, input: int, output: int): (r: real)
    requires (provider, model) in c.tariffs
  {
    var rates := c.tariffs[(provider, model)];
    (input as real * rates.input + output as real * rates.output) / 1000000.0 * c.exchangeRate
  }

  function ChargeOf(call: Call): real { if call.charged.Some? then call.charged.value else 0.0 }

  function HoldOf(call: Call): real { if call.status == Reserved then call.reserved else 0.0 }

  function SyntheticOf(call: Call): real { if call.synthetic then ChargeOf(call) else 0.0 }

  function Sum(calls: seq<Call>, amount: Call -> real): real {
    if calls == [] then 0.0 else Sum(calls[..|calls| - 1], amount) + amount(Last(calls))
  }

  function Charged(calls: seq<Call>): real { Sum(calls, ChargeOf) }

  function Outstanding(calls: seq<Call>): real { Sum(calls, HoldOf) }

  function Synthetic(calls: seq<Call>): real { Sum(calls, SyntheticOf) }

  function Warns(c: Config, total: real): bool { total * 100.0 >= c.limit * c.warningPercent }

  predicate HasId(calls: seq<Call>, id: string) {
    exists k :: 0 <= k < |calls| && calls[k].id == id
  }

  function Reserve(c: Config, calls: seq<Call>, id: string, provider: string, model: string, maxInput: int, maxOutput: int)
    : (seq<Call>, Result<Reservation>)
  {
    if (provider, model) !in c.tariffs || maxInput < 0 || maxOutput < 0 then
      (calls, Rejected("MODEL_COST_PROFILE_MISSING"))
    else
      var reserved := Calculate(c, provider, model, maxInput, maxOutput);
      var charged, active := Charged(calls), Outstanding(calls);
      if charged >= c.limit || charged + active + reserved > c.limit then (calls, Rejected("MODEL_COST_LIMIT_EXHAUSTED"))
      else if HasId(calls, id) then (calls, Rejected("UNIQUE"))
      else
        (calls + [Call(id, provider, model, maxInput, maxOutput, reserved, None, Status.Reserved, false)],
         Ok(Reservation(id, provider, model, maxInput, maxOutput, reserved, Warns(c, charged + active + reserved))))
  }

  predicate MetadataValid(r: Reservation, u: Usage) {
    && u.provider == r.provider && u.model == r.model
    && 0 <= u.input <= r.maxInput && 0 <= u.output <= r.maxOutput
  }

  /** The reserved row a reservation names, or the number of rows when there is none. */
  function OpenRow(calls: seq<Call>, id: string): (k: nat)
    ensures k <= |calls|
    ensures k < |calls| ==> calls[k].id == id && calls[k].status == Reserved
    ensures k == |calls| ==> forall j :: 0 <= j < |calls| ==> calls[j].id != id || calls[j].status != Reserved
  {
    if calls == [] || (calls[0].id == id && calls[0].status == Reserved) then 0 else 1 + OpenRow(calls[1..], id)
  }

  function Fail(calls: seq<Call>, r: Reservation): seq<Call> {
    var k := OpenRow(calls, r.id);
    if k == |calls| then calls else calls[k := calls[k].(charged := Some(calls[k].reserved), status := Failed)]
  }

  function Settle(c: Config, calls: seq<Call>, r: Reservation, u: Usage): (seq<Call>, Result<real>) {
    if !MetadataValid(r, u) then (Fail(calls, r), Rejected("MODEL_USAGE_METADATA_INVALID"))
    else if (u.provider, u.model) !in c.tariffs then (calls, Rejected("KeyError"))
    else
      var charged := Calculate(c, u.provider, u.model, u.input, u.output);
      var k := OpenRow(calls, r.id);
      if k == |calls| then (calls, Rejected("MODEL_COST_RESERVATION_INVALID"))
      else (calls[k := calls[k].(charged := Some(charged), status := Settled)], Ok(charged))
  }

  function RecordSynthetic(calls: seq<Call>, id: string, cost: real): (seq<Call>, Result<()>) {
    if cost < 0.0 then (calls, Rejected("MODEL_COST_CONFIGURATION_INVALID"))
    else if id == "" then (calls, Rejected("MODEL_COST_SYNTHETIC_INPUT_INVALID"))
    else if HasId(calls, id) then (calls, Rejected("UNIQUE"))
    else (calls + [Call(id, "synthetic", "synthetic", 0, 0, 0.0, Some(cost), Settled, true)], Ok(()))
  }

  /** The rows together with the reservations that were handed out. */
  datatype Ledger = Ledger(calls: seq<Call>, issued: seq<Reservation>)

  /** One transaction; settle and fail name the reservation by the order it was handed out in. */
  datatype Op =
    | ReserveOp(id: string, provider: string, model: string, maxInput: int, maxOutput: int)
    | SettleOp(which: nat, usage: Usage)
    | FailOp(which: nat)
    | SyntheticOp(id: string, cost: real)

  function Do(c: Config, l: Ledger, op: Op): Ledger {
    match op
    case ReserveOp(id, provider, model, maxInput, maxOutput) =>
      var (calls, got) := Reserve(c, l.calls, id, provider, model, maxInput, maxOutput);
      Ledger(calls, if got.Ok? then l.issued + [got.value] else l.issued)
    case SettleOp(which, usage) =>
      if which < |l.issued| then l.(calls := Settle(c, l.calls, l.issued[which], usage).0) else l
    case FailOp(which) =>
      if which < |l.issued| then l.(calls := Fail(l.calls, l.issued[which])) else l
    case SyntheticOp(id, cost) => l.(calls := RecordSynthetic(l.calls, id, cost).0)
  }

  function DoAll(c: Config, l: Ledger, ops: seq<Op>): Ledger
    decreases |ops|
  {
    if ops == [] then l else DoAll(c, Do(c, l, ops[0]), ops[1..])
  }

  const EMPTY_LEDGER := Ledger([], [])

  predicate RowOk(c: Config, call: Call) {
    if call.synthetic then call.status == Settled && call.charged.Some? && call.charged.value >= 0.0
    else
      && (call.provider, call.model) in c.tariffs
      && call.maxInput >= 0 && call.maxOutput >= 0
      && call.reserved == Calculate(c, call.provider, call.model, call.maxInput, call.maxOutput)
      && (call.status == Reserved <==> call.charged.None?)
      && (call.charged.Some? ==> 0.0 <= call.charged.value <= call.reserved)
  }

  ghost predicate RowsOk(c: Config, calls: seq<Call>) {
    && (forall k :: 0 <= k < |calls| ==> RowOk(c, calls[k]))
    && (forall j, k :: 0 <= j < k < |calls| ==> calls[j].id != calls[k].id)
  }

  predicate Matches(r: Reservation, call: Call) {
    && call.id == r.id && !call.synthetic && call.provider == r.provider && call.model == r.model
    && call.maxInput == r.maxInput && call.maxOutput == r.maxOutput && call.reserved == r.reserved
  }

  /** Every reservation handed out has its own row. */
  ghost predicate Genuine(l: Ledger) {
    forall i :: 0 <= i < |l.issued| ==> exists k :: 0 <= k < |l.calls| && Matches(l.issued[i], l.calls[k])
  }

  predicate WithinLimit(c: Config, calls: seq<Call>) {
    Charged(calls) + Outstanding(calls) <= c.limit + Synthetic(calls)
  }

  ghost predicate LedgerOk(c: Config, l: Ledger) {
    RowsOk(c, l.calls) && Genuine(l) && WithinLimit(c, l.calls)
  }

  /** Rows are only added; a row keeps its identity and reservation, and a charge is final. */
  ghost predicate Grows(before: seq<Call>, after: seq<Call>) {
    && |before| <= |after|
    && forall k :: 0 <= k < |before| ==>
         && after[k].id == before[k].id && after[k].reserved == before[k].reserved && after[k].synthetic == before[k].synthetic
         && (before[k].charged.Some? ==> after[k] == before[k])
  }

  lemma MulMono(a: int, b: int, r: real)
    requires 0 <= a <= b && r >= 0.0
    ensures 0.0 <= a as real * r <= b as real * r
  {
    assert (b - a) as real * r >= 0.0;
  }

  lemma ScaleMono(x: real, y: real, r: real)
    requires 0.0 <= x <= y && r >= 0.0
    ensures 0.0 <= x / 1000000.0 * r <= y / 1000000.0 * r
  {
    assert (y / 1000000.0 - x / 1000000.0) * r >= 0.0;
  }

  /** The price never falls when more tokens are used. */
  lemma PriceIsMonotone(c: Config, provider: string, model: string, a: int, b: int, x: int, y: int)
    requires c.Valid() && (provider, model) in c.tariffs
    requires 0 <= a <= b && 0 <= x <= y
    ensures 0.0 <= Calculate(c, provider, model, a, x) <= Calculate(c, provider, model, b, y)
  {
    var rates := c.tariffs[(provider, model)];
    MulMono(a, b, rates.input);
    MulMono(x, y, rates.output);
    ScaleMono(a as real * rates.input + x as real * rates.output, b as real * rates.input + y as real * rates.output, c.exchangeRate);
  }

  lemma {:induction false} SumReplaces(calls: seq<Call>, k: nat, call: Call, amount: Call -> real)
    requires k < |calls|
    ensures Sum(calls[k := call], amount) == Sum(calls, amount) - amount(calls[k]) + amount(call)
  {
    var n := |calls| - 1;
    if k == n {
      assert calls[k := call][..n] == calls[..n];
    } else {
      SumReplaces(calls[..n], k, call, amount);
      assert calls[k := call][..n] == calls[..n][k := call];
    }
  }

  lemma {:induction false} SumAppends(calls: seq<Call>, call: Call, amount: Call -> real)
    ensures Sum(calls + [call], amount) == Sum(calls, amount) + amount(call)
  {
    assert (calls + [call])[..|calls|] == calls;
  }

  /** Charging an open row at most its reservation keeps every row well-formed and the books inside the limit. */
  lemma ChargeKeeps(c: Config, l: Ledger, k: nat, call: Call)
    requires LedgerOk(c, l) && k < |l.calls| && l.calls[k].status == Reserved && !l.calls[k].synthetic
    requires call.charged.Some? && 0.0 <= call.charged.value <= l.calls[k].reserved && call.status != Reserved
    requires call == l.calls[k].(charged := call.charged, status := call.status)
    ensures LedgerOk(c, l.(calls := l.calls[k := call]))
    ensures Grows(l.calls, l.calls[k := call])
    ensures Charged(l.calls) <= Charged(l.calls[k := call])
  {
    SumReplaces(l.calls, k, call, ChargeOf);
    SumReplaces(l.calls, k, call, HoldOf);
    SumReplaces(l.calls, k, call, SyntheticOf);
    assert RowOk(c, l.calls[k]);
    var l' := l.(calls := l.calls[k := call]);
    forall i | 0 <= i < |l'.issued| ensures exists j :: 0 <= j < |l'.calls| && Matches(l'.issued[i], l'.calls[j]) {
      var j :| 0 <= j < |l.calls| && Matches(l.issued[i], l.calls[j]);
      assert Matches(l'.issued[i], l'.calls[j]);
    }
  }

  /** Inserting a row is within the limit when the row is synthetic or was checked against the limit. */
  lemma InsertKeeps(c: Config, l: Ledger, call: Call)
    requires LedgerOk(c, l) && RowOk(c, call) && !HasId(l.calls, call.id)
    requires call.charged.None? ==> Charged(l.calls) + Outstanding(l.calls) + call.reserved <= c.limit
    requires call.charged.Some? ==> call.synthetic
    ensures LedgerOk(c, l.(calls := l.calls + [call]))
    ensures Grows(l.calls, l.calls + [call])
    ensures Charged(l.calls) <= Charged(l.calls + [call])
  {
    SumAppends(l.calls, call, ChargeOf);
    SumAppends(l.calls, call, HoldOf);
    SumAppends(l.calls, call, SyntheticOf);
    SyntheticIsNotNegative(c, l.calls);
    var l' := l.(calls := l.calls + [call]);
    forall i | 0 <= i < |l'.issued| ensures exists j :: 0 <= j < |l'.calls| && Matches(l'.issued[i], l'.calls[j]) {
      var j :| 0 <= j < |l.calls| && Matches(l.issued[i], l.calls[j]);
      assert Matches(l'.issued[i], l'.calls[j]);
    }
  }

  lemma {:induction false} SyntheticIsNotNegative(c: Config, calls: seq<Call>)
    requires forall k :: 0 <= k < |calls| ==> RowOk(c, calls[k])
    ensures Synthetic(calls) >= 0.0
  {
    if calls != [] {
      SyntheticIsNotNegative(c, calls[..|calls| - 1]);
      assert RowOk(c, Last(calls));
    }
  }

  lemma FailKeeps(c: Config, l: Ledger, which: nat)
    requires c.Valid() && LedgerOk(c, l) && which < |l.issued|
    ensures
      var l' := l.(calls := Fail(l.calls, l.issued[which]));
      LedgerOk(c, l') && Grows(l.calls, l'.calls) && Charged(l.calls) <= Charged(l'.calls)
  {
    var k := OpenRow(l.calls, l.issued[which].id);
    if k < |l.calls| {
      var call := l.calls[k];
      assert RowOk(c, call);
      PriceIsMonotone(c, call.provider, call.model, 0, call.maxInput, 0, call.maxOutput);
      ChargeKeeps(c, l, k, call.(charged := Some(call.reserved), status := Failed));
    }
  }

  lemma SettleKeeps(c: Config, l: Ledger, which: nat, u: Usage)
    requires c.Valid() && LedgerOk(c, l) && which < |l.issued|
    ensures
      var l' := l.(calls := Settle(c, l.calls, l.issued[which], u).0);
      LedgerOk(c, l') && Grows(l.calls, l'.calls) && Charged(l.calls) <= Charged(l'.calls)
  {
    var r := l.issued[which];
    if !MetadataValid(r, u) {
      FailKeeps(c, l, which);
    } else {
      var k := OpenRow(l.calls, r.id);
      if (u.provider, u.model) in c.tariffs && k < |l.calls| {
        var call := l.calls[k];
        assert RowOk(c, call);
        var j :| 0 <= j < |l.calls| && Matches(r, l.calls[j]);
        assert j == k;
        PriceIsMonotone(c, u.provider, u.model, u.input, call.maxInput, u.output, call.maxOutput);
        ChargeKeeps(c, l, k, call.(charged := Some(Calculate(c, u.provider, u.model, u.input, u.output)), status := Settled));
      }
    }
  }

  lemma ReserveKeeps(c: Config, l: Ledger, op: Op)
    requires c.Valid() && LedgerOk(c, l) && op.ReserveOp?
    ensures
      var l' := Do(c, l, op);
      LedgerOk(c, l') && Grows(l.calls, l'.calls) && Charged(l.calls) <= Charged(l'.calls)
  {
    hide Calculate, Sum, Warns;
    var (calls, got) := Reserve(c, l.calls, op.id, op.provider, op.model, op.maxInput, op.maxOutput);
    if got.Ok? {
      InsertKeeps(c, l, Last(calls));
      IssueKeeps(c, l.(calls := calls), got.value, |calls| - 1);
      hide LedgerOk, Grows, RowOk, Reserve;
    }
  }

  /** Handing out a reservation that has its row. */
  lemma IssueKeeps(c: Config, l: Ledger, reservation: Reservation, k: nat)
    requires LedgerOk(c, l) && k < |l.calls| && Matches(reservation, l.calls[k])
    ensures LedgerOk(c, l.(issued := l.issued + [reservation]))
  {
    hide RowsOk, WithinLimit, Matches;
  }

  lemma StepKeeps(c: Config, l: Ledger, op: Op)
    requires c.Valid() && LedgerOk(c, l)
    ensures
      var l' := Do(c, l, op);
      LedgerOk(c, l') && Grows(l.calls, l'.calls) && Charged(l.calls) <= Charged(l'.calls)
  {
    hide Calculate, Sum, Matches;
    match op
    case ReserveOp(_, _, _, _, _) => ReserveKeeps(c, l, op);
    case SettleOp(which, u) => if which < |l.issued| { SettleKeeps(c, l, which, u); }
    case FailOp(which) => if which < |l.issued| { FailKeeps(c, l, which); }
    case SyntheticOp(id, cost) =>
      if RecordSynthetic(l.calls, id, cost).1.Ok? { InsertKeeps(c, l, Last(RecordSynthetic(l.calls, id, cost).0)); }
  }

  lemma {:induction false} RunKeeps(c: Config, l: Ledger, ops: seq<Op>)
    requires c.Valid() && LedgerOk(c, l)
    ensures
      var l' := DoAll(c, l, ops);
      LedgerOk(c, l') && Grows(l.calls, l'.calls) && Charged(l.calls) <= Charged(l'.calls)
    decreases |ops|
  {
    if ops != [] {
      StepKeeps(c, l, ops[0]);
      RunKeeps(c, Do(c, l, ops[0]), ops[1..]);
    }
  }

  /** Under every interleaving, what was charged and what is still held never exceed the limit plus the synthetic rows. */
  lemma {:induction false} SpendIsBounded(c: Config, ops: seq<Op>)
    requires c.Valid()
    ensures
      var calls := DoAll(c, EMPTY_LEDGER, ops).calls;
      Charged(calls) + Outstanding(calls) <= c.limit + Synthetic(calls)
  {
    RunKeeps(c, EMPTY_LEDGER, ops);
  }

  /** A reservation is charged at most once, and never more than was reserved for it. */
  lemma {:induction false} ChargedOnceAtMostReserved(c: Config, ops: seq<Op>, later: seq<Op>)
    requires c.Valid()
    ensures
      var before, after := DoAll(c, EMPTY_LEDGER, ops).calls, DoAll(c, DoAll(c, EMPTY_LEDGER, ops), later).calls;
      && Grows(before, after)
      && (forall k :: 0 <= k < |after| && !after[k].synthetic && after[k].charged.Some? ==>
           0.0 <= after[k].charged.value <= after[k].reserved)
      && (forall k :: 0 <= k < |after| && !after[k].synthetic ==> (after[k].status == Reserved <==> after[k].charged.None?))
  {
    RunKeeps(c, EMPTY_LEDGER, ops);
    RunKeeps(c, DoAll(c, EMPTY_LEDGER, ops), later);
    var after := DoAll(c, DoAll(c, EMPTY_LEDGER, ops), later).calls;
    assert forall k :: 0 <= k < |after| ==> RowOk(c, after[k]);
  }

  /** Once the charges reach the limit, no further model call is ever reserved. */
  lemma {:induction false} ExhaustionIsFinal(c: Config, l: Ledger, ops: seq<Op>)
    requires c.Valid() && LedgerOk(c, l) && Charged(l.calls) >= c.limit
    ensures DoAll(c, l, ops).issued == l.issued
    decreases |ops|
  {
    if ops != [] {
      StepKeeps(c, l, ops[0]);
      ExhaustionIsFinal(c, Do(c, l, ops[0]), ops[1..]);
    }
  }

  class DurableModelCostLedger {
    const config: Config
    var calls: seq<Call>

    constructor (config: Config)
      requires config.Valid()
      ensures this.config == config && calls == []
    {
      this.config := config;
      calls := [];
    }

    method ReserveCall(id: string, provider: string, model: string, maxInput: int, maxOutput: int) returns (r: Result<Reservation>)
      modifies this
      ensures (calls, r) == Reserve(config, old(calls), id, provider, model, maxInput, maxOutput)
    {
      if (provider, model) !in config.tariffs || maxInput < 0 || maxOutput < 0 {
        return Rejected("MODEL_COST_PROFILE_MISSING");
      }
      var reserved := Calculate(config, provider, model, maxInput, maxOutput);
      var charged, active, _ := Totals();
      if charged >= config.limit || charged + active + reserved > config.limit {
        return Rejected("MODEL_COST_LIMIT_EXHAUSTED");
      }
      if HasId(calls, id) {
        return Rejected("UNIQUE");
      }
      var warning := Warns(config, charged + active + reserved);
      calls := calls + [Call(id, provider, model, maxInput, maxOutput, reserved, None, Status.Reserved, false)];
      r := Ok(Reservation(id, provider, model, maxInput, maxOutput, reserved, warning));
    }

    method SettleCall(r: Reservation, u: Usage) returns (charged: Result<real>)
      modifies this
      ensures (calls, charged) == Settle(config, old(calls), r, u)
    {
      if !MetadataValid(r, u) {
        FailCall(r);
        return Rejected("MODEL_USAGE_METADATA_INVALID");
      }
      if (u.provider, u.model) !in config.tariffs {
        return Rejected("KeyError");
      }
      var cost := Calculate(config, u.provider, u.model, u.input, u.output);
      var k := OpenRow(calls, r.id);
      if k == |calls| {
        return Rejected("MODEL_COST_RESERVATION_INVALID");
      }
      calls := calls[k := calls[k].(charged := Some(cost), status := Settled)];
      charged := Ok(cost);
    }

    method FailCall(r: Reservation)
      modifies this
      ensures calls == Fail(old(calls), r)
    {
      var k := OpenRow(calls, r.id);
      if k < |calls| {
        calls := calls[k := calls[k].(charged := Some(calls[k].reserved), status := Failed)];
      }
    }

    method RecordSyntheticCost(id: string, cost: real) returns (r: Result<()>)
      modifies this
      ensures (calls, r) == RecordSynthetic(old(calls), id, cost)
    {
      if cost < 0.0 {
        return Rejected("MODEL_COST_CONFIGURATION_INVALID");
      }
      if id == "" {
        return Rejected("MODEL_COST_SYNTHETIC_INPUT_INVALID");
      }
      if HasId(calls, id) {
        return Rejected("UNIQUE");
      }
      calls := calls + [Call(id, "synthetic", "synthetic", 0, 0, 0.0, Some(cost), Settled, true)];
      r := Ok(());
    }

    method Totals() returns (charged: real, active: real, count: nat)
      ensures charged == Charged(calls) && active == Outstanding(calls) && count == |calls|
    {
      charged, active, count := 0.0, 0.0, |calls|;
      var k := 0;
      while k < |calls|
        invariant 0 <= k <= |calls|
        invariant charged == Sum(calls[..k], ChargeOf) && active == Sum(calls[..k], HoldOf)
      {
        SumAppends(calls[..k], calls[k], ChargeOf);
        SumAppends(calls[..k], calls[k], HoldOf);
        assert calls[..k + 1] == calls[..k] + [calls[k]];
        if calls[k].charged.Some? { charged := charged + calls[k].charged.value; }
        if calls[k].status == Reserved { active := active + calls[k].reserved; }
        k := k + 1;
      }
      assert calls[..k] == calls;
    }
  }

  // ---------- the price, and exactly when each transaction is granted ----------

  /** A price is linear in the tokens of either direction, and a million tokens cost the tariff of their direction in roubles. */
  lemma PriceIsTariff(c: Config, provider: string, model: string, input: int, output: int, more: int, further: int)
    requires (provider, model) in c.tariffs
    ensures Calculate(c, provider, model, 0, 0) == 0.0
    ensures Calculate(c, provider, model, 1_000_000, 0) == c.tariffs[(provider, model)].input * c.exchangeRate
    ensures Calculate(c, provider, model, 0, 1_000_000) == c.tariffs[(provider, model)].output * c.exchangeRate
    ensures Calculate(c, provider, model, input + more, output + further)
         == Calculate(c, provider, model, input, output) + Calculate(c, provider, model, more, further)
  {
    var rates := c.tariffs[(provider, model)];
    Distributes(rates.input, input as real, more as real);
    Distributes(rates.output, output as real, further as real);
    var one := input as real * rates.input + output as real * rates.output;
    var two := more as real * rates.input + further as real * rates.output;
    assert (input + more) as real * rates.input + (output + further) as real * rates.output == one + two;
    assert (one + two) / 1000000.0 == one / 1000000.0 + two / 1000000.0;
    Distributes(c.exchangeRate, one / 1000000.0, two / 1000000.0);
  }

  lemma Distributes(rate: real, a: real, b: real)
    ensures (a + b) * rate == a * rate + b * rate
  {
  }

  /** A call is reserved if and only if its tariff is known, its identifier is new, and its worst price fits under the limit. */
  lemma CallReservedWhen(c: Config, calls: seq<Call>, id: string, provider: string, model: string, maxInput: int, maxOutput: int)
    ensures var r := Reserve(c, calls, id, provider, model, maxInput, maxOutput);
            && (r.1.Ok? <==>
                  && (provider, model) in c.tariffs && maxInput >= 0 && maxOutput >= 0
                  && Charged(calls) < c.limit
                  && Charged(calls) + Outstanding(calls) + Calculate(c, provider, model, maxInput, maxOutput) <= c.limit
                  && forall call <- calls :: call.id != id)
            && (r.1.Rejected? ==> r.0 == calls)
            && (r.1.Ok? ==>
                  var price := Calculate(c, provider, model, maxInput, maxOutput);
                  && r.0 == calls + [Call(id, provider, model, maxInput, maxOutput, price, None, Status.Reserved, false)]
                  && r.1.value == Reservation(id, provider, model, maxInput, maxOutput, price,
                                              (Charged(calls) + Outstanding(calls) + price) * 100.0 >= c.limit * c.warningPercent))
  {
    hide Calculate, Sum;
  }

  /** The usage is of the reserved model and within the reserved tokens. */
  predicate UsageFits(r: Reservation, u: Usage) {
    u.provider == r.provider && u.model == r.model && 0 <= u.input && u.input <= r.maxInput && 0 <= u.output && u.output <= r.maxOutput
  }

  /** A call is settled at its real price if and only if its usage fits and its row is still reserved; a misfit charges the whole reservation. */
  lemma CallSettledWhen(c: Config, calls: seq<Call>, r: Reservation, u: Usage)
    ensures var s := Settle(c, calls, r, u);
            && (s.1.Ok? <==>
                  && UsageFits(r, u) && (u.provider, u.model) in c.tariffs
                  && exists k :: 0 <= k < |calls| && calls[k].id == r.id && calls[k].status == Reserved)
            && (s.1.Ok? ==> s.1.value == Calculate(c, u.provider, u.model, u.input, u.output))
            && (!UsageFits(r, u) ==> s.0 == Fail(calls, r))
            && (UsageFits(r, u) && s.1.Rejected? ==> s.0 == calls)
  {
    hide Calculate;
  }

  /** What each row adds to the totals. */
  lemma {:induction false} TotalsAddUp(calls: seq<Call>, call: Call)
    ensures Charged([]) == 0.0 && Outstanding([]) == 0.0
    ensures Charged(calls + [call]) == Charged(calls) + match call.charged case Some(amount) => amount case None => 0.0
    ensures Outstanding(calls + [call])
         == Outstanding(calls) + match call.status case Reserved => call.reserved case Settled => 0.0 case Failed => 0.0
  {
    assert (calls + [call])[..|calls|] == calls;
  }

  /** A synthetic cost is recorded if and only if it is not negative and its identifier is new and not empty. */
  lemma SyntheticRecordedWhen(calls: seq<Call>, id: string, cost: real)
    ensures var r := RecordSynthetic(calls, id, cost);
            && (r.1.Ok? <==> cost >= 0.0 && id != "" && forall call <- calls :: call.id != id)
            && r.0 == if r.1.Ok? then calls + [Call(id, "synthetic", "synthetic", 0, 0, 0.0, Some(cost), Settled, true)] else calls
  {
  }
}
