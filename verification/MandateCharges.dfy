/** What a mandate allows: exactly when each of its transactions is granted, and that every charge is the change's own. */
module MandateCharges {
  import opened Basics
  import opened Commands
  import opened ExecutionLedger
  import opened Dispatch
  import opened DispatchSafety
  import opened MandateQuotas
  import opened KillNames
  import opened ApprovalBinding

  // ---------- what a change costs, and which mandate covers it ----------

  /** The actions that move a number by a percentage. */
  predicate Relative(action: OptimizationAction) {
    action in {IncreaseWeeklyBudget, DecreaseWeeklyBudget, IncreaseSearchBid, DecreaseSearchBid}
  }

  /** The change can be charged: a relative one has numbers and a step. */
  predicate Chargeable(p: PreparedChange) {
    Relative(p.action) ==> p.source.Number? && p.target.Number? && p.diff.StepDiff?
  }

  /** The change has a price: a relative one has numbers. */
  predicate Priced(p: PreparedChange) {
    Relative(p.action) ==> p.source.Number? && p.target.Number?
  }

  /** A relative change costs its distance in whole units of a million, rounded, and its step in percent; others nothing. */
  predicate ChargedAs(p: PreparedChange, exposure: int, step: int) {
    if Relative(p.action) then
      && p.source.Number? && p.target.Number? && p.diff.StepDiff?
      && IsRounded(Abs(p.source.n - p.target.n), 1_000_000, exposure) && step == Abs(p.diff.percent)
    else exposure == 0 && step == 0
  }

  predicate Covers(terms: MandateTerms, p: PreparedChange) {
    && p.scope.organization == terms.organization && p.scope.connection == terms.connection
    && p.scope.account == terms.account && p.scope.campaign in terms.targets
    && p.action in terms.allowed && p.action !in terms.prohibited && p.policy == terms.policy
  }

  /** Active, unexpired, and revoked in neither store. */
  predicate InForce(l: Ledger, signals: set<Signal>, id: string, now: int) {
    && id in l.mandates && l.mandates[id].status == Active && now < l.mandates[id].terms.expiry
    && RevokedSignal(id) !in signals
  }

  lemma InForceWhen(l: Ledger, signals: set<Signal>, id: string, now: int)
    ensures MandateProblem(l, signals, id, now).None? <==> InForce(l, signals, id, now)
    ensures id in l.mandates && l.mandates[id].status == Revoked ==> MandateProblem(l, signals, id, now) == Some("MANDATE_REVOKED")
  {
  }

  lemma CoversWhen(terms: MandateTerms, p: PreparedChange)
    ensures BindingProblem(terms, p).None? <==> Covers(terms, p)
  {
  }

  /** The charge is determined by the change. */
  lemma ChargeWhen(p: PreparedChange, exposure: int, step: int)
    ensures Chargeable(p) <==> Exposure(p).Ok? && StepPercent(p).Ok?
    ensures Chargeable(p) ==> (ChargedAs(p, exposure, step) <==> exposure == Exposure(p).value && step == StepPercent(p).value)
    ensures Exposure(p).Ok? <==> Priced(p)
  {
    if Chargeable(p) && Relative(p.action) && IsRounded(Abs(p.source.n - p.target.n), 1_000_000, exposure) {
      RoundingIsDetermined(Abs(p.source.n - p.target.n), 1_000_000, exposure);
    }
  }

  // ---------- when the transactions are granted ----------

  /** A new charge stays within every limit of the mandate. */
  predicate WithinQuotas(l: Ledger, id: string, change: PreparedChange, exposure: int, step: int, now: int)
    requires id in l.mandates
  {
    var terms, past := l.mandates[id].terms, l.consumptions;
    && TotalExposure(past, id) + exposure <= terms.totalLimit
    && DailyExposure(past, id, now / 86_400_000_000) + exposure <= terms.dailyLimit
    && CountWithin(past, id, now - 86_400_000_000, None) < terms.actionsPer24Hours
    && step <= terms.maximumStep
    && DailySteps(past, id, now / 86_400_000_000) + step <= terms.maximumDailyChange
    && forall c <- past :: c.target == change.scope.campaign ==> c.until <= now
  }

  lemma QuotasWhen(l: Ledger, id: string, change: PreparedChange, exposure: int, step: int, now: int)
    requires id in l.mandates && Chargeable(change) && ChargedAs(change, exposure, step)
    ensures QuotaProblem(l, id, change, exposure, now).None? <==> WithinQuotas(l, id, change, exposure, step, now)
  {
    ChargeWhen(change, exposure, step);
    hide TotalExposure, DailyExposure, DailySteps, CountWithin, StepPercent, ChargedAs, Chargeable;
  }

  /** Everything the mandate path's reservation needs, for a given charge. */
  predicate MayReserve(l: Ledger, signals: set<Signal>, change: PreparedChange, id: string, exposure: int, step: int, now: int) {
    && InForce(l, signals, id, now) && Covers(l.mandates[id].terms, change)
    && KeyOf(change) !in l.executions && AllSettled(l) && !AnyRowOn(l.switches, change.scope)
    && WithinQuotas(l, id, change, exposure, step, now)
  }

  /**
   * The mandate path reserves if and only if the change has a charge, the mandate is in force and covers it, the execution is
   * new, every other one is settled, no kill switch row is on, and the charge stays within every quota; then the execution is
   * reserved and charged in one transaction, and otherwise nothing is.
   */
  lemma ReservesUnderWhen(l: Ledger, signals: set<Signal>, change: PreparedChange, id: string, exposure: int, step: int, now: int)
    requires ChargedAs(change, exposure, step)
    ensures var r := MandateReserve(l, signals, change, id, now);
            && (r.1.Moved? <==> MayReserve(l, signals, change, id, exposure, step, now))
            && (r.1.Moved? ==>
                  r.0 == l.(executions := l.executions[KeyOf(change) := Execution(change, Reserved)],
                            consumptions := l.consumptions
                              + [ExecutionLedger.Consumption.Consumption(KeyOf(change), id, change.scope.campaign, exposure, step, now,
                                             now + l.mandates[id].terms.observation)]))
            && (!r.1.Moved? ==> r.0 == l)
  {
    ChargedIsChargeable(change, exposure, step);
    ChargeWhen(change, exposure, step);
    InForceWhen(l, signals, id, now);
    SettledRows(l);
    RowsOnWhen(l.switches, change.scope);
    if id in l.mandates {
      CoversWhen(l.mandates[id].terms, change);
      QuotasWhen(l, id, change, exposure, step, now);
    }
    hide MandateProblem, BindingProblem, QuotaProblem, Exposure, StepPercent, Covers, InForce, WithinQuotas, ChargedAs, KeyOf,
         AnyRowOn, SwitchOn, AllSettled, AnyUnknown, AnyActive;
  }

  lemma ChargedIsChargeable(p: PreparedChange, exposure: int, step: int)
    requires ChargedAs(p, exposure, step)
    ensures Chargeable(p)
  {
  }

  /** A change without a charge is never reserved. */
  lemma NoChargeNoReservation(l: Ledger, signals: set<Signal>, change: PreparedChange, id: string, now: int)
    requires !Chargeable(change)
    ensures !MandateReserve(l, signals, change, id, now).1.Moved? && MandateReserve(l, signals, change, id, now).0 == l
  {
    ChargeWhen(change, 0, 0);
    hide MandateProblem, BindingProblem, KeyOf, SwitchOn, AnyUnknown, AnyActive, Exposure, StepPercent;
  }

  /**
   * A numeric change whose rounded distance is more than what is left of the total or of the day is refused, whatever else holds.
   */
  lemma {:induction false} TooExpensiveIsRefused(l: Ledger, signals: set<Signal>, change: PreparedChange, id: string, exposure: int, now: int)
    requires id in l.mandates && Relative(change.action) && change.source.Number? && change.target.Number?
    requires IsRounded(Abs(change.source.n - change.target.n), 1_000_000, exposure)
    requires TotalExposure(l.consumptions, id) + exposure > l.mandates[id].terms.totalLimit
             || DailyExposure(l.consumptions, id, now / 86_400_000_000) + exposure > l.mandates[id].terms.dailyLimit
    ensures !MandateReserve(l, signals, change, id, now).1.Moved?
  {
    if change.diff.StepDiff? {
      ReservesUnderWhen(l, signals, change, id, exposure, Abs(change.diff.percent), now);
    } else {
      NoChargeNoReservation(l, signals, change, id, now);
    }
    hide MandateReserve, TotalExposure, DailyExposure, KeyOf;
  }

  /** A consumption of this execution under this mandate. */
  predicate HasCharge(l: Ledger, key: ExecutionKey, id: string) {
    exists c <- l.consumptions :: c.key == key && c.mandate == id
  }

  /** The mandate path starts a reserved execution that was charged to this mandate, while it is in force and covers the change. */
  lemma StartsUnderWhen(l: Ledger, signals: set<Signal>, change: PreparedChange, id: string, now: int)
    ensures var r, key := MandateSend(l, signals, change, id, now), KeyOf(change);
            && (r.1.Moved? <==>
                  && InForce(l, signals, id, now) && Covers(l.mandates[id].terms, change)
                  && key in l.executions && l.executions[key].status == Reserved && HasCharge(l, key, id)
                  && !AnyRowOn(l.switches, change.scope))
            && (r.1.Moved? ==> r.0 == l.(executions := l.executions[key := l.executions[key].(status := InFlight)]))
            && (!r.1.Moved? ==> r.0 == l)
  {
    InForceWhen(l, signals, id, now);
    RowsOnWhen(l.switches, change.scope);
    if id in l.mandates {
      CoversWhen(l.mandates[id].terms, change);
    }
    hide MandateProblem, BindingProblem, Covers, KeyOf, AnyRowOn, SwitchOn;
  }

  /** The last check of the mandate path, read by read, and the one read of the approval path. */
  lemma ReadsPassWhen(w: World, change: PreparedChange, path: Path, made: nat, now: int)
    ensures ReadPasses(w, change, path, made, now)
       <==> match path
            case ByApproval(_) => !AnySignalOn(w.signals, change.scope)
            case ByMandate(id) =>
              && (made == 0 ==> RevokedSignal(id) !in w.signals)
              && (made == 1 ==> !AnySignalOn(w.signals, change.scope))
              && (made == 2 ==> id in w.ledger.mandates && w.ledger.mandates[id].status == Active && now < w.ledger.mandates[id].terms.expiry)
              && (made >= 3 ==> !AnyRowOn(w.ledger.switches, change.scope))
  {
    RowsOnWhen(w.ledger.switches, change.scope);
    SignalsOnWhen(w.signals, change.scope);
    hide SwitchOn, Signalled, AnyRowOn, AnySignalOn;
  }

  /** All four at once. */
  lemma LastCheckPassesWhen(l: Ledger, signals: set<Signal>, id: string, scope: Scope, now: int)
    ensures DispatchAllowed(l, signals, id, scope, now)
       <==> InForce(l, signals, id, now) && !AnyRowOn(l.switches, scope) && !AnySignalOn(signals, scope)
  {
    InForceWhen(l, signals, id, now);
    RowsOnWhen(l.switches, scope);
    SignalsOnWhen(signals, scope);
    hide MandateProblem, SwitchOn, Signalled, AnyRowOn, AnySignalOn;
  }

  /** A readback is recorded for an execution that ended BLOCKED or FAILED and was charged to this mandate. */
  lemma RechecksWhen(l: Ledger, change: PreparedChange, id: string, status: Status, now: int)
    requires status == Applied || status == UnknownResult
    ensures var r, key := RecordRecheck(l, change, id, status, now), KeyOf(change);
            && (r.1.Moved? <==> key in l.executions && l.executions[key].status in {Blocked, Failed} && HasCharge(l, key, id))
            && (r.1.Moved? ==>
                  r.0 == l.(executions := l.executions[key := l.executions[key].(status := status)],
                            rechecks := l.rechecks + [Recheck(key, id, l.executions[key].status, now)]))
            && (!r.1.Moved? ==> r.0 == l && r.1.Refused?)
  {
    hide KeyOf;
  }

  // ---------- the mandate's own rows ----------

  /** A mandate is issued once, with positive limits; the same terms again change nothing. */
  lemma IssuesWhen(l: Ledger, id: string, terms: MandateTerms)
    ensures var r := Issue(l, id, terms);
            && (r.1.Ok? <==>
                  && terms.totalLimit > 0 && terms.dailyLimit > 0 && terms.maximumStep > 0 && terms.maximumDailyChange > 0
                  && terms.actionsPer24Hours > 0 && terms.observation >= 0
                  && (id in l.mandates ==> l.mandates[id].terms == terms))
            && (if r.1.Ok? && id !in l.mandates then r.0 == l.(mandates := l.mandates[id := Mandate(terms, Issued)]) else r.0 == l)
  {
  }

  /** An issued, unexpired mandate is activated; a revoked one never is. */
  lemma ActivatesWhen(l: Ledger, id: string, now: int)
    ensures var r := Activate(l, id, now);
            && (r.1.Ok? <==>
                  && id in l.mandates && l.mandates[id].status != Revoked
                  && (l.mandates[id].status == Issued ==> now < l.mandates[id].terms.expiry))
            && (if r.1.Ok? then r.0 == l.(mandates := l.mandates[id := l.mandates[id].(status := Active)]) else r.0 == l)
  {
  }

  lemma RevokesRowWhen(l: Ledger, id: string)
    ensures var r := RevokeMandate(l, id);
            && (r.1.Ok? <==> id in l.mandates)
            && (if r.1.Ok? then r.0 == l.(mandates := l.mandates[id := l.mandates[id].(status := Revoked)]) else r.0 == l)
  {
  }

  // ---------- every charge of every run ----------

  /** Every execution carries a plan, under its own key. */
  ghost predicate RowsPlanned(l: Ledger, plans: map<string, PreparedChange>) {
    forall k :: k in l.executions ==>
      var p := l.executions[k].change; KeyOf(p) == k && p.proposal in plans && plans[p.proposal] == p
  }

  /** The charge is the execution's own, and its mandate covers it and had not expired. */
  ghost predicate ChargeFits(l: Ledger, c: Consumption) {
    && c.key in l.executions && c.mandate in l.mandates
    && var p, terms := l.executions[c.key].change, l.mandates[c.mandate].terms;
    && ChargedAs(p, c.exposure, c.step) && c.target == p.scope.campaign
    && Covers(terms, p) && c.at < terms.expiry && c.until == c.at + terms.observation
  }

  ghost predicate ChargesFit(l: Ledger) {
    forall i :: 0 <= i < |l.consumptions| ==> ChargeFits(l, l.consumptions[i])
  }

  lemma FitStays(l: Ledger, later: Ledger, c: Consumption)
    requires ChargeFits(l, c) && Extends(l, later) && Advances(l, later)
    ensures ChargeFits(later, c)
  {
    hide ChargedAs, Covers, OneActive;
    assert Below(l.executions[c.key], later.executions[c.key]);
  }

  lemma UnchargedFits(l: Ledger, later: Ledger)
    requires ChargesFit(l) && Extends(l, later) && Advances(l, later) && later.consumptions == l.consumptions
    ensures ChargesFit(later)
  {
    hide ChargeFits, Extends, Advances;
    forall i | 0 <= i < |later.consumptions| ensures ChargeFits(later, later.consumptions[i]) {
      FitStays(l, later, l.consumptions[i]);
    }
  }

  lemma ReserveFits(l: Ledger, signals: set<Signal>, change: PreparedChange, id: string, now: int)
    requires ChargesFit(l)
    ensures ChargesFit(MandateReserve(l, signals, change, id, now).0)
  {
    hide MandateReserve, ChargesFit, Exposure, StepPercent, WithinQuotas, KeyOf, AnyRowOn, AllSettled, Covers;
    var r := MandateReserve(l, signals, change, id, now);
    if !Chargeable(change) {
      NoChargeNoReservation(l, signals, change, id, now);
    } else {
      ChargeWhen(change, 0, 0);
      var exposure, step := Exposure(change).value, StepPercent(change).value;
      ChargeWhen(change, exposure, step);
      hide ChargedAs, Chargeable;
      ReservesUnderWhen(l, signals, change, id, exposure, step, now);
      if r.1.Moved? {
        MandateReserveAdvances(l, signals, change, id, now);
        NewChargeFits(l, r.0, change, id, exposure, step, now);
      }
    }
  }

  lemma NewChargeFits(l: Ledger, later: Ledger, change: PreparedChange, id: string, exposure: int, step: int, now: int)
    requires ChargesFit(l) && ChargedAs(change, exposure, step) && Advances(l, later)
    requires id in l.mandates && Covers(l.mandates[id].terms, change) && now < l.mandates[id].terms.expiry
    requires later == l.(executions := l.executions[KeyOf(change) := Execution(change, Reserved)],
                         consumptions := l.consumptions
                           + [ExecutionLedger.Consumption.Consumption(KeyOf(change), id, change.scope.campaign, exposure, step, now,
                                          now + l.mandates[id].terms.observation)])
    ensures ChargesFit(later)
  {
    hide ChargedAs, Covers, KeyOf, Advances;
    forall i | 0 <= i < |later.consumptions| ensures ChargeFits(later, later.consumptions[i]) {
      if i < |l.consumptions| {
        assert ChargeFits(l, l.consumptions[i]);
        assert later.consumptions[i] == l.consumptions[i];
        FitStays(l, later, l.consumptions[i]);
      }
    }
  }

  lemma StepFits(w: World, event: Event)
    requires ChargesFit(w.ledger)
    ensures ChargesFit(Next(w, event).ledger)
  {
    hide ChargesFit, Extends, Advances;
    StepExtends(w, event);
    StepAdvances(w, event);
    if event.Hold? {
      hide Others, MandateReserve;
      if event.proposal in w.plans {
        ReserveFits(w.ledger, w.signals, w.plans[event.proposal], event.mandate, event.now);
      }
    } else {
      hide Next;
      UnchargedFits(w.ledger, Next(w, event).ledger);
    }
  }

  // ---------- the call is of the change that was charged ----------

  /** New executions are plans; the others keep their change. */
  ghost predicate NewRowsPlanned(l: Ledger, later: Ledger, plans: map<string, PreparedChange>) {
    forall k :: k in later.executions && k !in l.executions ==>
      var p := later.executions[k].change; KeyOf(p) == k && p.proposal in plans && plans[p.proposal] == p
  }

  lemma InsertPlanned(l: Ledger, later: Ledger, plans: map<string, PreparedChange>, change: PreparedChange, status: Status)
    requires change.proposal in plans && plans[change.proposal] == change
    requires later.executions == l.executions || later.executions == l.executions[KeyOf(change) := Execution(change, status)]
    ensures NewRowsPlanned(l, later, plans)
  {
    hide KeyOf;
  }

  lemma NoneNew(l: Ledger, later: Ledger, plans: map<string, PreparedChange>)
    requires later.executions.Keys <= l.executions.Keys
    ensures NewRowsPlanned(l, later, plans)
  {
  }

  lemma StepRows(w: World, event: Event)
    requires PlansOk(w)
    ensures NewRowsPlanned(w.ledger, Next(w, event).ledger, w.plans)
  {
    hide NewRowsPlanned, SendOnce, ReserveExecution, MandateReserve, KeyOf, DoConsume, DoBeginQuiet, DoReleaseQuiet, DoFinishQuiet,
         DoFinishHeld, DoStartHeld, DoReadCheck, DoCall, DoRefuse, DoReject, DoRelease, DoBlock, DoClassify, Others;
    NoneNew(w.ledger, w.ledger, w.plans);
    match event
    case Start(ex, proposal, approval, now) =>
      if proposal in w.plans {
        SendRows(w.ledger, w.signals, w.plans[proposal], approval, now);
        InsertPlanned(w.ledger, SendOnce(w.ledger, w.signals, w.plans[proposal], approval, now).0, w.plans, w.plans[proposal], InFlight);
      }
    case StartQuiet(ex, proposal) =>
      if proposal in w.plans {
        ReserveRows(w.ledger, w.plans[proposal]);
        InsertPlanned(w.ledger, ReserveExecution(w.ledger, w.plans[proposal]).0, w.plans, w.plans[proposal], Reserved);
      }
    case Hold(ex, proposal, mandate, now) =>
      if proposal in w.plans {
        HoldRows(w.ledger, w.signals, w.plans[proposal], mandate, now);
        InsertPlanned(w.ledger, MandateReserve(w.ledger, w.signals, w.plans[proposal], mandate, now).0, w.plans, w.plans[proposal], Reserved);
      }
    case _ =>
      NoInsertion(w, event);
      NoneNew(w.ledger, Next(w, event).ledger, w.plans);
  }

  lemma SendRows(l: Ledger, signals: set<Signal>, change: PreparedChange, id: string, now: int)
    ensures var r := SendOnce(l, signals, change, id, now).0;
            r.executions == l.executions || r.executions == l.executions[KeyOf(change) := Execution(change, InFlight)]
  {
    hide KeyOf;
  }

  lemma ReserveRows(l: Ledger, change: PreparedChange)
    ensures var r := ReserveExecution(l, change).0;
            r.executions == l.executions || r.executions == l.executions[KeyOf(change) := Execution(change, Reserved)]
  {
    hide KeyOf;
  }

  lemma HoldRows(l: Ledger, signals: set<Signal>, change: PreparedChange, id: string, now: int)
    ensures var r := MandateReserve(l, signals, change, id, now).0;
            r.executions == l.executions || r.executions == l.executions[KeyOf(change) := Execution(change, Reserved)]
  {
    hide KeyOf, QuotaProblem, MandateProblem, BindingProblem, SwitchOn, Exposure, StepPercent, AnyUnknown, AnyActive;
  }

  lemma NoInsertion(w: World, event: Event)
    requires !event.Start? && !event.StartQuiet? && !event.Hold?
    ensures Next(w, event).ledger.executions.Keys <= w.ledger.executions.Keys
  {
    hide DoStart, DoStartQuiet, DoHold, SwitchOn, Signalled, MandateProblem, BindingProblem, ConsumedBy, KeyOf, IsBlank, SoundTerms;
    if FromExecutor(event) {
      ExecutorInserts(w, event);
      hide Next;
    }
  }

  lemma ExecutorInserts(w: World, event: Event)
    requires FromExecutor(event) && !event.Start? && !event.StartQuiet?
    ensures Next(w, event).ledger.executions.Keys <= w.ledger.executions.Keys
  {
    hide Next;
    if event.Consume? || event.BeginQuiet? || event.ReleaseQuiet? || event.FinishQuiet? || event.Release? {
      ApprovalPathInserts(w, event);
    } else {
      MandatePathInserts(w, event);
    }
  }

  lemma ApprovalPathInserts(w: World, event: Event)
    requires event.Consume? || event.BeginQuiet? || event.ReleaseQuiet? || event.FinishQuiet? || event.Release?
    ensures Next(w, event).ledger.executions.Keys <= w.ledger.executions.Keys
  {
    hide DoStart, DoStartQuiet, DoHold, DoFinishHeld, DoStartHeld, DoReadCheck, DoCall, DoRefuse, DoReject, DoBlock, DoClassify, Others,
         KeyOf, ConsumeRows, BeginExecution, ReleaseReservation, Finish;
    if event.ex in w.executors {
      NothingInserted(w.ledger, w.signals, w.executors[event.ex]);
    }
  }

  lemma MandatePathInserts(w: World, event: Event)
    requires event.FinishHeld? || event.StartHeld? || event.ReadCheck? || event.Call? || event.Refuse? || event.Reject? || event.Block?
             || event.Classify? || event.Crash?
    ensures Next(w, event).ledger.executions.Keys <= w.ledger.executions.Keys
  {
    hide DoStart, DoStartQuiet, DoHold, DoConsume, DoBeginQuiet, DoReleaseQuiet, DoFinishQuiet, DoRelease, Others,
         KeyOf, ReadPasses, MandateSend, Finish;
    if event.ex in w.executors {
      NothingInserted(w.ledger, w.signals, w.executors[event.ex]);
    }
  }

  /** None of the transactions an executor makes on its way inserts a row. */
  lemma NothingInserted(l: Ledger, signals: set<Signal>, position: Position)
    ensures forall id, now :: ConsumeRows(l, position.change, id, now).0.executions.Keys <= l.executions.Keys
    ensures forall id, now :: BeginExecution(l, position.change, id, now).0.executions.Keys <= l.executions.Keys
    ensures forall id, now :: MandateSend(l, signals, position.change, id, now).0.executions.Keys <= l.executions.Keys
    ensures forall id :: ReleaseReservation(l, id, KeyOf(position.change)).executions.Keys <= l.executions.Keys
    ensures forall status :: IsFinal(status) ==> Finish(l, KeyOf(position.change), status).0.executions.Keys <= l.executions.Keys
  {
    hide KeyOf, MandateProblem, BindingProblem, ConsumedBy, SwitchOn, Applicable, Consumable;
  }

  lemma RowsStay(w: World, event: Event)
    requires PlansOk(w) && RowsPlanned(w.ledger, w.plans)
    ensures RowsPlanned(Next(w, event).ledger, Next(w, event).plans)
  {
    hide Next, KeyOf, OneActive;
    StepRows(w, event);
    StepAdvances(w, event);
    PlansGrow(w, event);
    var l, later := w.ledger, Next(w, event).ledger;
    forall k | k in later.executions
      ensures var p := later.executions[k].change; KeyOf(p) == k && p.proposal in w.plans && w.plans[p.proposal] == p
    {
      if k in l.executions {
        assert Below(l.executions[k], later.executions[k]);
      }
    }
  }

  lemma {:induction false} RunFits(w: World, events: seq<Event>)
    requires WorldOk(w) && ChargesFit(w.ledger) && RowsPlanned(w.ledger, w.plans)
    ensures var later := Run(w, events); WorldOk(later) && ChargesFit(later.ledger) && RowsPlanned(later.ledger, later.plans)
    decreases |events|
  {
    hide CallsOk, AuthorityOk, PlansOk, Next, ChargesFit, RowsPlanned;
    if events != [] {
      StepKeeps(w, events[0]);
      StepFits(w, events[0]);
      RowsStay(w, events[0]);
      RunFits(Next(w, events[0]), events[1..]);
    }
  }

  /**
   * Over every history: every consumption is charged with the rounded distance and the step of the change it was reserved for,
   * on that change's campaign, under a mandate that covers the change and had not expired.
   */
  lemma {:induction false} ChargesAreTrue(events: seq<Event>, i: nat)
    requires i < |Run(EMPTY_WORLD, events).ledger.consumptions|
    ensures var l := Run(EMPTY_WORLD, events).ledger;
            var c := l.consumptions[i];
            && c.key in l.executions && c.mandate in l.mandates
            && var p, terms := l.executions[c.key].change, l.mandates[c.mandate].terms;
            && KeyOf(p) == c.key && c.target == p.scope.campaign
            && (Relative(p.action) ==>
                  && p.source.Number? && p.target.Number? && p.diff.StepDiff?
                  && IsRounded(Abs(p.source.n - p.target.n), 1_000_000, c.exposure) && c.step == Abs(p.diff.percent))
            && (!Relative(p.action) ==> c.exposure == 0 && c.step == 0)
            && Covers(terms, p) && c.at < terms.expiry && c.until == c.at + terms.observation
  {
    hide Run, KeyOf, Covers, IsRounded, Relative;
    NothingCharged();
    RunFits(EMPTY_WORLD, events);
    assert ChargeFits(Run(EMPTY_WORLD, events).ledger, Run(EMPTY_WORLD, events).ledger.consumptions[i]);
  }

  lemma NothingCharged()
    ensures WorldOk(EMPTY_WORLD) && ChargesFit(EMPTY_WORLD.ledger) && RowsPlanned(EMPTY_WORLD.ledger, EMPTY_WORLD.plans)
  {
  }

  /** And every call of the mandate path is of the change that was charged, which its mandate covers. */
  lemma {:induction false} MandateCallsAreCovered(events: seq<Event>, i: nat) returns (n: nat)
    requires i < |Run(EMPTY_WORLD, events).log|
    requires Run(EMPTY_WORLD, events).log[i].Transport? && Run(EMPTY_WORLD, events).log[i].path.ByMandate?
    ensures var w := Run(EMPTY_WORLD, events);
            var id := w.log[i].path.mandate;
            && n < |w.ledger.consumptions| && w.ledger.consumptions[n].mandate == id && id in w.ledger.mandates
            && w.ledger.consumptions[n].key in w.ledger.executions
            && w.ledger.executions[w.ledger.consumptions[n].key].change == w.log[i].change
            && Covers(w.ledger.mandates[id].terms, w.log[i].change)
            && ChargedAs(w.log[i].change, w.ledger.consumptions[n].exposure, w.ledger.consumptions[n].step)
  {
    hide Run, Covers, ChargedAs, CallsOk, AuthorityOk;
    NothingCharged();
    RunFits(EMPTY_WORLD, events);
    n := MandateCallsAreCharged(events, i);
    var w := Run(EMPTY_WORLD, events);
    assert ChargeFits(w.ledger, w.ledger.consumptions[n]);
    SameExecutionWhen(w.ledger.executions[w.ledger.consumptions[n].key].change, w.log[i].change);
    hide KeyOf;
  }
}
