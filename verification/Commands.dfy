/** Approved changes and the exact typed command each of them may become. */
module Commands {
  import opened Basics

  datatype OptimizationAction =
    | IncreaseWeeklyBudget
    | DecreaseWeeklyBudget
    | IncreaseSearchBid
    | DecreaseSearchBid
    | SetAdVariant
    | SuspendCampaign
    | ResumeCampaign

  datatype AdVariant = AdVariant(variantId: string, title: string, text: string)

  /** A value read from, or written to, the advertising account. */
  datatype Value =
    | Number(n: int)
    | Variant(ad: AdVariant)
    | CampaignState(name: string)
    | Foreign(text: string)
    | Absent

  datatype Diff =
    | StepDiff(operation: OptimizationAction, percent: int)
    | VariantDiff(operation: OptimizationAction, ad: AdVariant, sourcePlan: string)
    | StateDiff(operation: OptimizationAction, target: Value)
    | ForeignDiff(operation: OptimizationAction, text: string)

  datatype Scope = Scope(organization: string, connection: string, account: string, campaign: string)

  datatype PreparedChange = PreparedChange(
    proposal: string, proposalHash: string, scope: Scope, action: OptimizationAction,
    source: Value, target: Value, diff: Diff, fingerprint: string, policy: string)

  /** The execution key is a hash of these fields; here it keeps them. */
  datatype ExecutionKey = ExecutionKey(
    organization: string, connection: string, campaign: string, proposal: string, proposalHash: string,
    action: OptimizationAction, target: Value, fingerprint: string, policy: string)

  function KeyOf(p: PreparedChange): ExecutionKey {
    ExecutionKey(p.scope.organization, p.scope.connection, p.scope.campaign, p.proposal, p.proposalHash, p.action,
                 p.target, p.fingerprint, p.policy)
  }

  /** The adapter's address of the changed value. */
  datatype TargetKey = TargetKey(scope: Scope, action: OptimizationAction)

  function TargetOf(p: PreparedChange): TargetKey {
    TargetKey(p.scope, p.action)
  }

  datatype Rollback = Rollback(action: OptimizationAction, target: Value)

  datatype Command = Command(change: PreparedChange, key: ExecutionKey, minimum: int, maximum: int, rollback: Rollback)

  // ---------- the exact target of a relative step ----------

  function Abs(n: int): (r: nat)
    ensures r == n || r == -n
  {
    if n < 0 then -n else n
  }

  /** Nearest to the quotient, and on a tie the one further from zero. */
  predicate IsRounded(numerator: int, denominator: int, r: int)
    requires denominator > 0
  {
    && 2 * Abs(r * denominator - numerator) <= denominator
    && (2 * Abs(r * denominator - numerator) == denominator ==> Abs(r) * denominator > Abs(numerator))
  }

  /** Decimal's ROUND_HALF_UP: to the nearest integer, ties away from zero. */
  function RoundHalfUp(numerator: int, denominator: int): (r: int)
    requires denominator > 0
    ensures IsRounded(numerator, denominator, r)
  {
    var r := (2 * Abs(numerator) + denominator) / (2 * denominator);
    RoundsToNearest(Abs(numerator), denominator);
    if numerator < 0 then -r else r
  }

  lemma RoundsToNearest(numerator: nat, denominator: int)
    requires denominator > 0
    ensures var r := (2 * numerator + denominator) / (2 * denominator);
            && r >= 0
            && -denominator < 2 * (r * denominator - numerator) <= denominator
            && (-r) * denominator == -(r * denominator)
  {
    var r := (2 * numerator + denominator) / (2 * denominator);
    assert 2 * numerator + denominator == r * (2 * denominator) + (2 * numerator + denominator) % (2 * denominator);
    assert r * (2 * denominator) == 2 * (r * denominator);
  }

  function RelativeTarget(current: int, percent: int): int {
    RoundHalfUp(current * (100 + percent), 100)
  }

  /** The nearest integer with ties away from zero is unique, so the contract of the rounding determines it. */
  lemma RoundingIsDetermined(numerator: int, denominator: int, r: int)
    requires denominator > 0 && IsRounded(numerator, denominator, r)
    ensures r == RoundHalfUp(numerator, denominator)
  {
    var s := RoundHalfUp(numerator, denominator);
    if r > s {
      OneIsRounded(numerator, denominator, r, s);
    } else if r < s {
      OneIsRounded(numerator, denominator, s, r);
    }
  }

  /** Of two different integers at most one is the rounded value. */
  lemma OneIsRounded(n: int, d: int, high: int, low: int)
    requires d > 0 && high > low && IsRounded(n, d, high)
    ensures !IsRounded(n, d, low)
  {
    var a, b := high * d, low * d;
    MultiplesApart(high, low, d);
    AbsTimes(high, d);
    AbsTimes(low, d);
    if low < 0 {
      MultiplesApart(0, low, d);
    }
    if high > 0 {
      MultiplesApart(high, 0, d);
    }
  }

  lemma MultiplesApart(high: int, low: int, d: int)
    requires d > 0 && high > low
    ensures high * d >= low * d + d
  {
    assert high * d - low * d == (high - low) * d;
    assert (high - low) * d == d + (high - low - 1) * d;
    assert (high - low - 1) * d >= 0;
  }

  lemma AbsTimes(n: int, d: int)
    requires d > 0
    ensures Abs(n) * d == Abs(n * d)
  {
    assert (-n) * d == -(n * d);
  }

  /** A step up of `percent` moves a non-negative value exactly when it is worth half a unit, one down when more. */
  lemma RelativeTargetMoves(current: nat, percent: int)
    requires 1 <= percent <= 100
    ensures RelativeTarget(current, percent) != current <==> current * percent >= 50
    ensures RelativeTarget(current, -percent) != current <==> current * percent > 50
    ensures RelativeTarget(current, percent) >= current >= RelativeTarget(current, -percent)
  {
    hide RoundHalfUp, IsRounded;
    var offset := current * percent;
    OffsetIs(current, percent);
    RoundsNear(current, offset);
    RoundsNear(current, -offset);
  }

  lemma OffsetIs(current: nat, percent: int)
    requires 1 <= percent <= 100
    ensures current * (100 + percent) == 100 * current + current * percent
    ensures current * (100 + -percent) == 100 * current - current * percent
    ensures 0 <= current * percent <= 100 * current
  {
    assert current * (100 - percent) >= 0;
  }

  /** Rounding a hundredfold with an offset stays put exactly while the offset is less than half a unit, or half a unit down. */
  lemma RoundsNear(current: nat, offset: int)
    requires 100 * current + offset >= 0
    ensures RoundHalfUp(100 * current + offset, 100) == current <==> -50 <= offset < 50
    ensures offset >= 0 ==> RoundHalfUp(100 * current + offset, 100) >= current
    ensures offset <= 0 ==> RoundHalfUp(100 * current + offset, 100) <= current
  {
    hide IsRounded;
  }

  /** The full step of ten percent moves every value from 5 upward, and downward every value from 6. */
  lemma TenPercentMoves(current: nat)
    ensures RelativeTarget(current, 10) != current <==> current >= 5
    ensures RelativeTarget(current, -10) != current <==> current >= 6
  {
    RelativeTargetMoves(current, 10);
  }

  // ---------- the command ----------

  function RelativePercent(action: OptimizationAction): Option<int> {
    match action
    case IncreaseWeeklyBudget => Some(10)
    case DecreaseWeeklyBudget => Some(-10)
    case IncreaseSearchBid => Some(10)
    case DecreaseSearchBid => Some(-10)
    case SetAdVariant => None
    case SuspendCampaign => None
    case ResumeCampaign => None
  }

  function RollbackAction(action: OptimizationAction): OptimizationAction {
    match action
    case IncreaseWeeklyBudget => DecreaseWeeklyBudget
    case DecreaseWeeklyBudget => IncreaseWeeklyBudget
    case IncreaseSearchBid => DecreaseSearchBid
    case DecreaseSearchBid => IncreaseSearchBid
    case SetAdVariant => SetAdVariant
    case SuspendCampaign => ResumeCampaign
    case ResumeCampaign => SuspendCampaign
  }

  predicate IsBlank(text: string) {
    forall c <- text :: c == ' ' || c == '\t' || c == '\n' || c == '\r'
  }

  function SignedStep(action: OptimizationAction, step: int): int
    requires RelativePercent(action).Some?
  {
    if RelativePercent(action).value > 0 then step else -step
  }

  function BuildNumeric(p: PreparedChange, minimum: int, maximum: int): Result<Command>
    requires RelativePercent(p.action).Some?
  {
    if !p.source.Number? then Rejected("INVALID_INPUT: current numeric value is invalid.")
    else if !p.diff.StepDiff? || !(1 <= p.diff.percent <= Abs(RelativePercent(p.action).value)) then
      Rejected("INVALID_INPUT: numeric step is not exact.")
    else
      var exact := RelativeTarget(p.source.n, SignedStep(p.action, p.diff.percent));
      if p.target != Number(exact) then Rejected("INVALID_INPUT: numeric diff is not exact.")
      else if exact < minimum || exact > maximum then Rejected("OUT_OF_BOUNDS: target value exceeds an exact limit.")
      else Ok(Command(p, KeyOf(p), minimum, maximum, Rollback(RollbackAction(p.action), p.source)))
  }

  predicate UsableVariant(ad: AdVariant) {
    ad.variantId in {"A", "B"} && !IsBlank(ad.title) && !IsBlank(ad.text)
  }

  function BuildVariant(p: PreparedChange, minimum: int, maximum: int): Result<Command> {
    if !p.source.Variant? || !p.target.Variant? || !UsableVariant(p.source.ad) || !UsableVariant(p.target.ad)
       || p.source.ad.variantId == p.target.ad.variantId
    then Rejected("INVALID_INPUT: ad variant transition is invalid.")
    else if !p.diff.VariantDiff? || p.diff.ad != p.target.ad || !("sha256:" <= p.diff.sourcePlan) then
      Rejected("INVALID_INPUT: ad variant diff is not exact.")
    else Ok(Command(p, KeyOf(p), minimum, maximum, Rollback(SetAdVariant, p.source)))
  }

  function StateChange(action: OptimizationAction): (Value, Value) {
    if action == SuspendCampaign then (CampaignState("ON"), CampaignState("SUSPENDED"))
    else (CampaignState("SUSPENDED"), CampaignState("ON"))
  }

  function BuildState(p: PreparedChange, minimum: int, maximum: int): Result<Command> {
    if (p.source, p.target) != StateChange(p.action) then Rejected("INVALID_INPUT: campaign state transition is invalid.")
    else if p.diff != StateDiff(p.action, p.target) then Rejected("INVALID_INPUT: campaign state diff is not exact.")
    else Ok(Command(p, KeyOf(p), minimum, maximum, Rollback(RollbackAction(p.action), p.source)))
  }

  /** Builds only the exact command the approved change represents. */
  function BuildCommand(p: PreparedChange, minimum: int, maximum: int): Result<Command> {
    if p.diff.operation != p.action then Rejected("INVALID_INPUT: expected diff operation is not exact.")
    else if RelativePercent(p.action).Some? then BuildNumeric(p, minimum, maximum)
    else if p.action == SetAdVariant then BuildVariant(p, minimum, maximum)
    else BuildState(p, minimum, maximum)
  }

  /** Whether a buildable change has an effect: all but relative steps too small to round to another value. */
  predicate Effective(p: PreparedChange) {
    RelativePercent(p.action).Some? && p.source.Number? && p.diff.StepDiff? ==>
      var worth := Abs(p.source.n) * p.diff.percent;
      if (RelativePercent(p.action).value > 0) then worth >= 50 else worth > 50
  }

  lemma RelativeTargetMirrors(current: int, percent: int)
    ensures RelativeTarget(-current, percent) == -RelativeTarget(current, percent)
  {
    var t := RelativeTarget(current, percent);
    assert (-current) * (100 + percent) == -(current * (100 + percent));
    RoundingIsDetermined(-(current * (100 + percent)), 100, -t);
  }

  /** Source and target of a built command differ exactly when the change is effective. */
  lemma CommandChangesValue(p: PreparedChange, minimum: int, maximum: int)
    requires BuildCommand(p, minimum, maximum).Ok?
    ensures p.source != p.target <==> Effective(p)
  {
    if RelativePercent(p.action).Some? {
      var n, step := p.source.n, p.diff.percent;
      RelativeTargetMoves(Abs(n), step);
      RelativeTargetMirrors(n, SignedStep(p.action, step));
    }
  }

  /** The change that would undo a variant or state change. */
  function Inverse(p: PreparedChange): PreparedChange {
    var action := RollbackAction(p.action);
    p.(action := action, source := p.target, target := p.source,
       diff := if p.diff.VariantDiff? && p.source.Variant? then VariantDiff(action, p.source.ad, p.diff.sourcePlan)
               else if p.diff.StateDiff? then StateDiff(action, p.source)
               else if p.diff.StepDiff? then StepDiff(action, p.diff.percent)
               else p.diff)
  }

  /** Variant and state commands are undone by an equally exact command, whose own rollback is the first change. */
  lemma RollbackIsExact(p: PreparedChange, minimum: int, maximum: int)
    requires BuildCommand(p, minimum, maximum).Ok? && RelativePercent(p.action).None?
    ensures var command := BuildCommand(p, minimum, maximum).value;
            var undo := BuildCommand(Inverse(p), minimum, maximum);
            && command.rollback == Rollback(Inverse(p).action, Inverse(p).target)
            && undo.Ok? && undo.value.rollback == Rollback(p.action, p.target)
  {
  }

  // ---------- when the opposite relative step undoes a relative step ----------

  /** The same step down leads back to where a step up of `percent` started. */
  predicate UpIsUndone(current: int, percent: int) {
    RelativeTarget(RelativeTarget(current, percent), -percent) == current
  }

  predicate DownIsUndone(current: int, percent: int) {
    RelativeTarget(RelativeTarget(current, -percent), percent) == current
  }

  /** Half-up rounding of a hundredfold with an offset adds the rounded offset. */
  lemma RoundsTo(current: nat, offset: int, step: int)
    requires 100 * current + offset >= 0
    ensures RoundHalfUp(100 * current + offset, 100) == current + step <==> 100 * step - 50 <= offset < 100 * step + 50
  {
    hide IsRounded;
  }

  /** The distance a step moves a value, and the rest that rounding adds or drops. */
  lemma StepMoves(current: nat, percent: int)
    requires 1 <= percent <= 100
    ensures var up := RelativeTarget(current, percent) - current;
            0 <= up && 100 * up - 50 <= current * percent < 100 * up + 50
    ensures var down := current - RelativeTarget(current, -percent);
            0 <= down <= current && 100 * down - 50 < current * percent <= 100 * down + 50
  {
    hide IsRounded, RoundHalfUp;
    OffsetIs(current, percent);
    var offset := current * percent;
    RoundsTo(current, offset, RelativeTarget(current, percent) - current);
    RoundsTo(current, -offset, RelativeTarget(current, -percent) - current);
    RelativeTargetMoves(current, percent);
  }

  /**
   * A step up is undone by the same step down exactly when the step, taken of the new value, is still worth no more than
   * half a unit over the distance moved.
   */
  lemma UpIsUndoneWhen(current: nat, percent: int)
    requires 1 <= percent <= 100
    ensures var target := RelativeTarget(current, percent);
            UpIsUndone(current, percent) <==> target * percent <= 100 * (target - current) + 50
  {
    hide IsRounded, RoundHalfUp;
    StepMoves(current, percent);
    var target := RelativeTarget(current, percent);
    var up := target - current;
    OffsetIs(target, percent);
    RoundsTo(target, -(target * percent), -up);
    Distributes(current, up, percent);
  }

  lemma Distributes(current: int, step: nat, percent: int)
    requires percent >= 1
    ensures (current + step) * percent == current * percent + step * percent
    ensures (current - step) * percent == current * percent - step * percent
    ensures step * percent >= step
  {
  }

  /** A step down is undone by the same step up unless it was worth exactly half a unit, or lost too much to come back. */
  lemma DownIsUndoneWhen(current: nat, percent: int)
    requires 1 <= percent <= 100
    ensures var target := RelativeTarget(current, -percent);
            DownIsUndone(current, percent) <==> current * percent != 50 && 100 * (current - target) <= target * percent + 50
  {
    hide IsRounded, RoundHalfUp;
    StepMoves(current, percent);
    var target := RelativeTarget(current, -percent);
    var down := current - target;
    OffsetIs(target, percent);
    RoundsTo(target, target * percent, down);
    Distributes(current, down, percent);
  }

  /** What rounding to tens adds: to the next ten from `tie` on, to the ten below before. */
  function Spare(digit: int, tie: int): int {
    if digit < tie then -digit else 10 - digit
  }

  /** Ten percent of a value, rounded, is its tens rounded up from the tie digit on. */
  lemma TenPercentIs(current: nat, step: int, tie: int)
    requires tie == 5 ==> 100 * step - 50 <= current * 10 < 100 * step + 50
    requires tie == 6 ==> 100 * step - 50 < current * 10 <= 100 * step + 50
    requires tie == 5 || tie == 6
    ensures 10 * step == current + Spare(current % 10, tie)
  {
    assert current == 10 * (current / 10) + current % 10;
  }

  /** For the full step of ten percent the condition is on the value alone: its size against its last digit. */
  lemma TenPercentIsUndone(current: nat)
    ensures UpIsUndone(current, 10) <==> current <= 50 + 9 * Spare(current % 10, 5)
    ensures DownIsUndone(current, 10) <==> current != 5 && current <= 50 - 11 * Spare(current % 10, 6)
  {
    hide *;
    UpIsUndoneWhen(current, 10);
    DownIsUndoneWhen(current, 10);
    StepMoves(current, 10);
    TenPercentIs(current, RelativeTarget(current, 10) - current, 5);
    TenPercentIs(current, current - RelativeTarget(current, -10), 6);
  }

  /** No step up from 96 on and no step down from 106 on is undone, and the first that is not is at 24 and at 5: 100 ends at 99. */
  lemma RelativeStepsDoNotUndo(current: nat)
    ensures current > 95 ==> !UpIsUndone(current, 10)
    ensures current > 105 ==> !DownIsUndone(current, 10)
    ensures UpIsUndone(95, 10) && DownIsUndone(105, 10)
    ensures current < 24 ==> UpIsUndone(current, 10)
    ensures !UpIsUndone(24, 10) && !DownIsUndone(5, 10)
    ensures RelativeTarget(RelativeTarget(100, 10), -10) == 99
  {
    hide UpIsUndone, DownIsUndone;
    TenPercentIsUndone(current);
    TenPercentIsUndone(95);
    TenPercentIsUndone(105);
    TenPercentIsUndone(24);
    TenPercentIsUndone(5);
    assert RelativeTarget(100, 10) == 110;
  }

  /** What a caller can compute from a numeric command: whether the opposite step, taken of its target, leads back. */
  predicate NumericIsUndone(p: PreparedChange)
    requires p.source.Number? && p.diff.StepDiff? && RelativePercent(p.action).Some?
  {
    var value, percent := Abs(p.source.n), p.diff.percent;
    if RelativePercent(p.action).value > 0 then
      RelativeTarget(value, percent) * percent <= 100 * (RelativeTarget(value, percent) - value) + 50
    else
      var target := RelativeTarget(value, -percent);
      value * percent != 50 && 100 * (value - target) <= target * percent + 50
  }

  /**
   * A numeric command's rollback names the opposite action and the former value, but that value is an exact target of the
   * same step only under the condition above: otherwise no approved change with this step can carry the rollback out.
   */
  lemma NumericRollbackIsExactWhen(p: PreparedChange, minimum: int, maximum: int)
    requires BuildCommand(p, minimum, maximum).Ok? && RelativePercent(p.action).Some?
    ensures var command := BuildCommand(p, minimum, maximum).value;
            var undo := BuildCommand(Inverse(p), minimum, maximum);
            && command.rollback == Rollback(Inverse(p).action, Inverse(p).target)
            && (undo.Ok? <==> NumericIsUndone(p) && minimum <= p.source.n <= maximum)
            && (undo.Ok? ==> undo.value.rollback == Rollback(p.action, p.target))
  {
    hide RoundHalfUp, IsRounded, RelativeTarget;
    var value, percent := Abs(p.source.n), p.diff.percent;
    var step := SignedStep(p.action, percent);
    UpIsUndoneWhen(value, percent);
    DownIsUndoneWhen(value, percent);
    RelativeTargetMirrors(p.source.n, step);
    RelativeTargetMirrors(p.target.n, -step);
    RelativeTargetMirrors(RelativeTarget(value, step), -step);
  }

  // ---------- exactly which changes become a command ----------

  /** A relative change is a whole step of one to ten percent, in the direction of its action, from its source to its rounded target. */
  predicate ExactStep(p: PreparedChange, minimum: int, maximum: int) {
    && p.source.Number? && p.target.Number? && p.diff.StepDiff? && 1 <= p.diff.percent <= 10
    && minimum <= p.target.n <= maximum
    && (p.action in {IncreaseWeeklyBudget, IncreaseSearchBid} ==> IsRounded(p.source.n * (100 + p.diff.percent), 100, p.target.n))
    && (p.action in {DecreaseWeeklyBudget, DecreaseSearchBid} ==> IsRounded(p.source.n * (100 - p.diff.percent), 100, p.target.n))
  }

  predicate Written(ad: AdVariant) {
    (ad.variantId == "A" || ad.variantId == "B") && !IsBlank(ad.title) && !IsBlank(ad.text)
  }

  /** A variant change goes from one written variant to the other one. */
  predicate ExactVariant(p: PreparedChange) {
    && p.source.Variant? && p.target.Variant? && Written(p.source.ad) && Written(p.target.ad)
    && p.source.ad.variantId != p.target.ad.variantId
    && p.diff.VariantDiff? && p.diff.ad == p.target.ad && "sha256:" <= p.diff.sourcePlan
  }

  /** A campaign is suspended from ON, and resumed from SUSPENDED. */
  predicate ExactState(p: PreparedChange) {
    && (p.action == SuspendCampaign ==> p.source == CampaignState("ON") && p.target == CampaignState("SUSPENDED"))
    && (p.action == ResumeCampaign ==> p.source == CampaignState("SUSPENDED") && p.target == CampaignState("ON"))
    && p.diff == StateDiff(p.action, p.target)
  }

  /** A command is built if and only if the change is exact for its action; it carries the change, its key, the limits and the way back. */
  lemma BuildsWhen(p: PreparedChange, minimum: int, maximum: int)
    ensures var r := BuildCommand(p, minimum, maximum);
            && (r.Ok? <==>
                  && p.diff.operation == p.action
                  && match p.action
                     case SetAdVariant => ExactVariant(p)
                     case SuspendCampaign => ExactState(p)
                     case ResumeCampaign => ExactState(p)
                     case _ => ExactStep(p, minimum, maximum))
            && (r.Ok? ==>
                  && r.value.change == p && r.value.key == KeyOf(p) && r.value.minimum == minimum && r.value.maximum == maximum
                  && r.value.rollback.target == p.source)
  {
    if RelativePercent(p.action).Some? && p.source.Number? && p.diff.StepDiff? && p.target.Number? {
      var numerator := p.source.n * (100 + SignedStep(p.action, p.diff.percent));
      if IsRounded(numerator, 100, p.target.n) {
        RoundingIsDetermined(numerator, 100, p.target.n);
      }
    }
    hide RoundHalfUp, IsRounded, IsBlank, KeyOf;
  }
}
