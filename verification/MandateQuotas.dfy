/** Mandate quotas over every history, whatever the clock does between two reservations. */
module MandateQuotas {
  import opened Basics
  import opened Commands
  import opened ExecutionLedger
  import opened Dispatch
  import opened DispatchSafety

  // ---------- what the consumptions must satisfy ----------

  ghost predicate Charged(l: Ledger) {
    forall i :: 0 <= i < |l.consumptions| ==>
      var c := l.consumptions[i];
      && c.mandate in l.mandates && c.key in l.executions
      && c.exposure >= 0 && c.step >= 0
      && c.until == c.at + l.mandates[c.mandate].terms.observation
      && c.step <= l.mandates[c.mandate].terms.maximumStep
  }

  /** No execution is charged twice, and a target is acted on again only after the earlier observation has closed. */
  ghost predicate Spaced(consumptions: seq<Consumption>) {
    forall i, j :: 0 <= i < j < |consumptions| ==>
      && consumptions[i].key != consumptions[j].key
      && (consumptions[i].target == consumptions[j].target ==> consumptions[j].at >= consumptions[i].until)
  }

  /** The mandate's actions in the 24 hours after `x`. */
  function InDayAfter(consumptions: seq<Consumption>, mandate: string, x: int): nat {
    CountWithin(consumptions, mandate, x, Some(x + DAY))
  }

  ghost predicate WithinLimits(l: Ledger, id: string)
    requires id in l.mandates
  {
    var terms := l.mandates[id].terms;
    && SoundTerms(terms)
    && TotalExposure(l.consumptions, id) <= terms.totalLimit
    && (forall day :: DailyExposure(l.consumptions, id, day) <= terms.dailyLimit)
    && (forall day :: DailySteps(l.consumptions, id, day) <= terms.maximumDailyChange)
    && (forall x :: InDayAfter(l.consumptions, id, x) <= terms.actionsPer24Hours)
  }

  ghost predicate QuotasOk(l: Ledger) {
    && Charged(l) && Spaced(l.consumptions)
    && forall id :: id in l.mandates ==> WithinLimits(l, id)
  }

  // ---------- the sums ----------

  lemma {:induction false} NothingOf(consumptions: seq<Consumption>, id: string, day: int, x: int)
    requires forall i :: 0 <= i < |consumptions| ==> consumptions[i].mandate != id
    ensures TotalExposure(consumptions, id) == 0 && DailyExposure(consumptions, id, day) == 0
    ensures DailySteps(consumptions, id, day) == 0 && CountWithin(consumptions, id, x, Some(x + DAY)) == 0
  {
    if consumptions != [] {
      NothingOf(consumptions[..|consumptions| - 1], id, day, x);
    }
  }

  lemma {:induction false} WindowIsRecent(consumptions: seq<Consumption>, id: string, x: int, now: int)
    requires now - DAY <= x
    ensures CountWithin(consumptions, id, x, Some(x + DAY)) <= CountWithin(consumptions, id, now - DAY, None)
  {
    if consumptions != [] {
      WindowIsRecent(consumptions[..|consumptions| - 1], id, x, now);
    }
  }

  lemma Appended(consumptions: seq<Consumption>, c: Consumption, id: string, day: int, x: int)
    ensures var later := consumptions + [c];
            && TotalExposure(later, id) == TotalExposure(consumptions, id) + (if c.mandate == id then c.exposure else 0)
            && DailyExposure(later, id, day)
               == DailyExposure(consumptions, id, day) + (if c.mandate == id && DayOf(c.at) == day then c.exposure else 0)
            && DailySteps(later, id, day)
               == DailySteps(consumptions, id, day) + (if c.mandate == id && DayOf(c.at) == day then c.step else 0)
            && CountWithin(later, id, x, Some(x + DAY))
               == CountWithin(consumptions, id, x, Some(x + DAY)) + (if c.mandate == id && x < c.at <= x + DAY then 1 else 0)
  {
    assert (consumptions + [c])[..|consumptions|] == consumptions;
  }

  /** What a granted quota check says about the new consumption. */
  lemma {:induction false} GrantedQuota(l: Ledger, id: string, change: PreparedChange, exposure: int, now: int)
    requires id in l.mandates && QuotaProblem(l, id, change, exposure, now).None?
    ensures var terms := l.mandates[id].terms;
            && TotalExposure(l.consumptions, id) + exposure <= terms.totalLimit
            && CountWithin(l.consumptions, id, now - DAY, None) < terms.actionsPer24Hours
            && DailyExposure(l.consumptions, id, DayOf(now)) + exposure <= terms.dailyLimit
            && StepPercent(change).Ok? && StepPercent(change).value <= terms.maximumStep
            && DailySteps(l.consumptions, id, DayOf(now)) + StepPercent(change).value <= terms.maximumDailyChange
            && (forall c <- l.consumptions :: c.target == change.scope.campaign ==> c.until <= now)
  {
  }

  lemma {:induction false} ChargeKeepsLimits(l: Ledger, later: Ledger, c: Consumption, id: string)
    requires id in l.mandates && WithinLimits(l, id)
    requires later.mandates == l.mandates && later.consumptions == l.consumptions + [c]
    requires c.mandate == id ==>
               var terms := l.mandates[id].terms;
               && TotalExposure(l.consumptions, id) + c.exposure <= terms.totalLimit
               && CountWithin(l.consumptions, id, c.at - DAY, None) < terms.actionsPer24Hours
               && DailyExposure(l.consumptions, id, DayOf(c.at)) + c.exposure <= terms.dailyLimit
               && DailySteps(l.consumptions, id, DayOf(c.at)) + c.step <= terms.maximumDailyChange
    ensures WithinLimits(later, id)
  {
    hide TotalExposure, DailyExposure, DailySteps, CountWithin, DayOf;
    var terms := l.mandates[id].terms;
    Appended(l.consumptions, c, id, 0, 0);
    forall day ensures DailyExposure(later.consumptions, id, day) <= terms.dailyLimit
                       && DailySteps(later.consumptions, id, day) <= terms.maximumDailyChange {
      Appended(l.consumptions, c, id, day, 0);
    }
    forall x ensures InDayAfter(later.consumptions, id, x) <= terms.actionsPer24Hours {
      Appended(l.consumptions, c, id, 0, x);
      assert InDayAfter(l.consumptions, id, x) <= terms.actionsPer24Hours;
      if c.mandate == id && x < c.at <= x + DAY {
        WindowIsRecent(l.consumptions, id, x, c.at);
      }
    }
  }

  lemma ExposureIsNatural(change: PreparedChange)
    ensures Exposure(change).Ok? ==> Exposure(change).value >= 0
    ensures StepPercent(change).Ok? ==> StepPercent(change).value >= 0
  {
  }

  /** A granted reservation keeps every quota. */
  lemma ReserveKeepsQuotas(l: Ledger, signals: set<Signal>, change: PreparedChange, id: string, now: int)
    requires QuotasOk(l)
    ensures QuotasOk(MandateReserve(l, signals, change, id, now).0)
  {
    hide QuotaProblem, MandateProblem, BindingProblem, Exposure, StepPercent, SwitchOn, TotalExposure, DailyExposure, DailySteps,
         CountWithin, DayOf;
    var r := MandateReserve(l, signals, change, id, now);
    if r.1.Moved? {
      MandateExists(l, signals, id, now);
      var exposure := Exposure(change).value;
      GrantedQuota(l, id, change, exposure, now);
      ExposureIsNatural(change);
      var c := Last(r.0.consumptions);
      assert r.0.consumptions == l.consumptions + [c];
      forall other | other in r.0.mandates ensures WithinLimits(r.0, other) {
        ChargeKeepsLimits(l, r.0, c, other);
      }
      hide WithinLimits;
      assert forall i :: 0 <= i < |l.consumptions| ==> l.consumptions[i] in l.consumptions;
    }
  }

  lemma MandateExists(l: Ledger, signals: set<Signal>, id: string, now: int)
    requires MandateProblem(l, signals, id, now).None?
    ensures id in l.mandates
  {
  }

  // ---------- every event ----------

  /** Consumptions are only appended, rows and mandate terms stay. */
  ghost predicate Extends(l: Ledger, later: Ledger) {
    && l.consumptions <= later.consumptions
    && (forall id :: id in l.mandates ==> id in later.mandates && later.mandates[id].terms == l.mandates[id].terms)
    && l.executions.Keys <= later.executions.Keys
  }

  lemma UnchargedKeeps(l: Ledger, later: Ledger)
    requires QuotasOk(l) && Extends(l, later) && later.consumptions == l.consumptions
    requires forall id :: id in later.mandates && id !in l.mandates ==> SoundTerms(later.mandates[id].terms)
    ensures QuotasOk(later)
  {
    hide TotalExposure, DailyExposure, DailySteps, CountWithin;
    forall id | id in later.mandates ensures WithinLimits(later, id) {
      if id in l.mandates {
        assert WithinLimits(l, id);
      } else {
        NewMandateWithin(later, id);
      }
    }
  }

  lemma NewMandateWithin(l: Ledger, id: string)
    requires id in l.mandates && SoundTerms(l.mandates[id].terms)
    requires forall i :: 0 <= i < |l.consumptions| ==> l.consumptions[i].mandate != id
    ensures WithinLimits(l, id)
  {
    hide TotalExposure, DailyExposure, DailySteps, CountWithin;
    NothingOf(l.consumptions, id, 0, 0);
    forall day ensures DailyExposure(l.consumptions, id, day) == 0 && DailySteps(l.consumptions, id, day) == 0 {
      NothingOf(l.consumptions, id, day, 0);
    }
    forall x ensures InDayAfter(l.consumptions, id, x) == 0 {
      NothingOf(l.consumptions, id, 0, x);
    }
  }

  /** Apart from the mandate path's reservation no event touches the consumptions, and new mandates are sound. */
  lemma StepExtends(w: World, event: Event)
    ensures Extends(w.ledger, Next(w, event).ledger)
    ensures !event.Hold? ==> Next(w, event).ledger.consumptions == w.ledger.consumptions
    ensures forall id :: id in Next(w, event).ledger.mandates && id !in w.ledger.mandates ==>
              SoundTerms(Next(w, event).ledger.mandates[id].terms)
  {
    hide QuotaProblem, MandateProblem, BindingProblem, Exposure, StepPercent, SwitchOn, AnyUnknown, AnyActive, Stopped, Applicable,
         Consumable, ConsumedBy, IsBlank, SoundTerms;
    if event.Hold? {
      HoldExtends(w, event.ex, event.proposal, event.mandate, event.now);
      hide DoHold;
    } else {
      hide DoHold;
      OtherExtends(w, event);
    }
  }

  lemma HoldExtends(w: World, ex: nat, proposal: string, mandate: string, now: int)
    ensures var later := DoHold(w, ex, proposal, mandate, now);
            Extends(w.ledger, later.ledger) && later.ledger.mandates == w.ledger.mandates
  {
    hide QuotaProblem, MandateProblem, BindingProblem, Exposure, StepPercent, SwitchOn, AnyUnknown, AnyActive;
  }

  predicate FromExecutor(event: Event) {
    event.Start? || event.Consume? || event.StartQuiet? || event.BeginQuiet? || event.ReleaseQuiet? || event.FinishQuiet?
    || event.FinishHeld? || event.StartHeld? || event.ReadCheck? || event.Call? || event.Refuse? || event.Reject? || event.Release? || event.Block?
    || event.Classify? || event.Crash?
  }

  lemma OtherExtends(w: World, event: Event)
    requires !event.Hold?
    ensures var later := Next(w, event).ledger;
            && Extends(w.ledger, later) && later.consumptions == w.ledger.consumptions
            && forall id :: id in later.mandates && id !in w.ledger.mandates ==> SoundTerms(later.mandates[id].terms)
  {
    hide SoundTerms;
    if FromExecutor(event) {
      hide Next;
      ExecutorExtends(w, event);
    } else {
      hide Others;
      OutsideExtends(w, event);
    }
  }

  lemma ExecutorExtends(w: World, event: Event)
    requires FromExecutor(event)
    ensures var later := Next(w, event).ledger;
            && later.mandates == w.ledger.mandates && later.consumptions == w.ledger.consumptions
            && w.ledger.executions.Keys <= later.executions.Keys
  {
    StepAdvances(w, event);
    ExecutorKeepsMandates(w, event);
    hide Next;
  }

  lemma ExecutorKeepsMandates(w: World, event: Event)
    requires FromExecutor(event)
    ensures Next(w, event).ledger.mandates == w.ledger.mandates && Next(w, event).ledger.consumptions == w.ledger.consumptions
  {
    hide DoHold, Others, MandateProblem, BindingProblem, SwitchOn, AnyUnknown, AnyActive, Stopped, Applicable, Consumable, ConsumedBy,
         DispatchAllowed, KeyOf;
    if event.Start? || event.Consume? || event.StartQuiet? || event.BeginQuiet? || event.ReleaseQuiet? || event.FinishQuiet? {
      ApprovalPathKeepsMandates(w, event);
      hide DoStart, DoConsume, DoStartQuiet, DoBeginQuiet, DoReleaseQuiet, DoFinishQuiet, Next;
    }
  }

  lemma ApprovalPathKeepsMandates(w: World, event: Event)
    requires event.Start? || event.Consume? || event.StartQuiet? || event.BeginQuiet? || event.ReleaseQuiet? || event.FinishQuiet?
    ensures Next(w, event).ledger.mandates == w.ledger.mandates && Next(w, event).ledger.consumptions == w.ledger.consumptions
  {
    hide Others, AnyUnknown, AnyActive, Stopped, Applicable, Consumable, KeyOf;
  }

  lemma OutsideExtends(w: World, event: Event)
    ensures var later := Others(w, event).ledger;
            && Extends(w.ledger, later) && later.consumptions == w.ledger.consumptions
            && forall id :: id in later.mandates && id !in w.ledger.mandates ==> SoundTerms(later.mandates[id].terms)
  {
    hide ConsumedBy, IsBlank, SoundTerms;
  }

  lemma StepKeepsQuotas(w: World, event: Event)
    requires QuotasOk(w.ledger)
    ensures QuotasOk(Next(w, event).ledger)
  {
    hide QuotasOk, MandateReserve;
    StepExtends(w, event);
    if event.Hold? {
      hide Others;
      if event.proposal in w.plans {
        ReserveKeepsQuotas(w.ledger, w.signals, w.plans[event.proposal], event.mandate, event.now);
      }
    } else {
      hide Next, Extends;
      UnchargedKeeps(w.ledger, Next(w, event).ledger);
    }
  }

  /**
   * Over every history, in whatever order the clock reads fall: exposure within the total and the daily limit, daily steps
   * within their cap, at most the action quota in any 24 hours, acted-on targets at least the earlier observation window
   * apart across all mandates, and no execution charged twice.
   */
  lemma {:induction false} QuotasHold(w: World, events: seq<Event>)
    requires QuotasOk(w.ledger)
    ensures QuotasOk(Run(w, events).ledger) && Extends(w.ledger, Run(w, events).ledger)
    decreases |events|
  {
    hide QuotasOk, Next;
    if events != [] {
      StepKeepsQuotas(w, events[0]);
      StepExtends(w, events[0]);
      QuotasHold(Next(w, events[0]), events[1..]);
    }
  }

  lemma EmptyQuotas()
    ensures QuotasOk(EMPTY_WORLD.ledger)
  {
  }

  // ---------- every mandate-path call is charged ----------

  ghost predicate CallsCharged(w: World) {
    && (forall ex :: ex in w.executors && InTransit(w.executors[ex]) && w.executors[ex].path.ByMandate? ==>
          ConsumedBy(w.ledger, KeyOf(w.executors[ex].change), w.executors[ex].path.mandate))
    && (forall i :: 0 <= i < |w.log| && w.log[i].Transport? && w.log[i].path.ByMandate? ==>
          ConsumedBy(w.ledger, KeyOf(w.log[i].change), w.log[i].path.mandate))
  }

  lemma ConsumedStays(l: Ledger, later: Ledger, key: ExecutionKey, id: string)
    requires Extends(l, later) && ConsumedBy(l, key, id)
    ensures ConsumedBy(later, key, id)
  {
    var c :| c in l.consumptions && c.key == key && c.mandate == id;
    assert c in later.consumptions;
  }

  /** How an event may change who is in transit and what was called. */
  lemma StepTransit(w: World, event: Event)
    requires PlansOk(w)
    ensures var later := Next(w, event);
            && (forall ex :: ex in later.executors && InTransit(later.executors[ex]) && later.executors[ex].path.ByMandate? ==>
                  (ex in w.executors && InTransit(w.executors[ex]) && later.executors[ex].path == w.executors[ex].path
                   && later.executors[ex].change == w.executors[ex].change)
                  || ConsumedBy(later.ledger, KeyOf(later.executors[ex].change), later.executors[ex].path.mandate))
            && (later.log == w.log || (|later.log| == |w.log| + 1 && later.log[..|w.log|] == w.log
                && (Last(later.log).Transport? ==>
                      exists ex :: ex in w.executors && InTransit(w.executors[ex])
                                   && Last(later.log) == Transport(w.executors[ex].change, w.executors[ex].path))))
  {
    if IsQuiet(event) {
      hide Next, ConsumedBy;
      QuietExecutors(w, event);
      if event.AddPlan? {
        AddPlanLog(w, event.change);
      } else {
        QuietLog(w, event);
      }
    } else {
      LoudTransit(w, event);
      hide Next, ConsumedBy;
    }
  }

  lemma AddPlanLog(w: World, change: PreparedChange)
    ensures Next(w, AddPlan(change)).log == w.log
  {
    hide DoStart, DoConsume, DoStartQuiet, DoBeginQuiet, DoReleaseQuiet, DoFinishQuiet, DoHold, DoFinishHeld, DoStartHeld, DoReadCheck,
         DoCall, DoRefuse, DoRelease, DoBlock, DoClassify;
  }

  lemma LoudTransit(w: World, event: Event)
    requires !IsQuiet(event)
    ensures var later := Next(w, event);
            && (forall ex :: ex in later.executors && InTransit(later.executors[ex]) && later.executors[ex].path.ByMandate? ==>
                  (ex in w.executors && InTransit(w.executors[ex]) && later.executors[ex].path == w.executors[ex].path
                   && later.executors[ex].change == w.executors[ex].change)
                  || ConsumedBy(later.ledger, KeyOf(later.executors[ex].change), later.executors[ex].path.mandate))
            && (later.log == w.log || (|later.log| == |w.log| + 1 && later.log[..|w.log|] == w.log
                && (Last(later.log).Transport? ==>
                      exists ex :: ex in w.executors && InTransit(w.executors[ex])
                                   && Last(later.log) == Transport(w.executors[ex].change, w.executors[ex].path))))
  {
    hide DoStartQuiet, DoBeginQuiet, DoReleaseQuiet, DoFinishQuiet, DoHold, DoFinishHeld, DoRefuse, DoRelease, DoBlock, DoClassify,
         Others, SendOnce, ConsumeRows, ReadPasses, MandateProblem, BindingProblem, SwitchOn, KeyOf;
  }

  lemma StepCharged(w: World, event: Event)
    requires PlansOk(w) && CallsCharged(w)
    ensures CallsCharged(Next(w, event))
  {
    hide Next, ConsumedBy, Extends;
    StepTransit(w, event);
    StepExtends(w, event);
    var later := Next(w, event);
    forall key, id | ConsumedBy(w.ledger, key, id) ensures ConsumedBy(later.ledger, key, id) {
      ConsumedStays(w.ledger, later.ledger, key, id);
    }
    forall i | 0 <= i < |later.log| && later.log[i].Transport? && later.log[i].path.ByMandate?
      ensures ConsumedBy(later.ledger, KeyOf(later.log[i].change), later.log[i].path.mandate)
    {
      if i < |w.log| {
        assert later.log[i] == w.log[i];
      }
    }
  }

  lemma {:induction false} RunCharged(w: World, events: seq<Event>)
    requires WorldOk(w) && CallsCharged(w)
    ensures CallsCharged(Run(w, events))
    decreases |events|
  {
    hide CallsOk, AuthorityOk, PlansOk, CallsCharged, Next;
    if events != [] {
      StepCharged(w, events[0]);
      StepKeeps(w, events[0]);
      RunCharged(Next(w, events[0]), events[1..]);
    }
  }

  /** Every transport call under a mandate has exactly one consumption, of that mandate, and it is never taken back. */
  lemma MandateCallsAreCharged(events: seq<Event>, i: nat) returns (n: nat)
    requires i < |Run(EMPTY_WORLD, events).log|
    requires Run(EMPTY_WORLD, events).log[i].Transport? && Run(EMPTY_WORLD, events).log[i].path.ByMandate?
    ensures var w := Run(EMPTY_WORLD, events);
            && n < |w.ledger.consumptions| && w.ledger.consumptions[n].key == KeyOf(w.log[i].change)
            && w.ledger.consumptions[n].mandate == w.log[i].path.mandate
            && (forall m :: 0 <= m < |w.ledger.consumptions| && w.ledger.consumptions[m].key == KeyOf(w.log[i].change) ==> m == n)
  {
    hide Run, Next, WithinLimits;
    EmptyQuotas();
    QuotasHold(EMPTY_WORLD, events);
    RunCharged(EMPTY_WORLD, events);
    var w := Run(EMPTY_WORLD, events);
    hide KeyOf;
    var c :| c in w.ledger.consumptions && c.key == KeyOf(w.log[i].change) && c.mandate == w.log[i].path.mandate;
    n :| 0 <= n < |w.ledger.consumptions| && w.ledger.consumptions[n] == c;
  }
}
