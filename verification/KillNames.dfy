/** Which kill switches stop a change: the four of its scope, by name, and no other. */
module KillNames {
  import opened Commands
  import opened ExecutionLedger

  /** The kill switch `s` is for this scope. */
  predicate Names(s: string, scope: Scope) {
    || s == "global"
    || s == "organization:" + scope.organization
    || s == "connection:" + scope.connection
    || s == "campaign:" + scope.campaign
  }

  predicate RowOn(switches: map<string, bool>, s: string) {
    s in switches && switches[s]
  }

  /** A row of one of the four is on. */
  predicate AnyRowOn(switches: map<string, bool>, scope: Scope) {
    || RowOn(switches, "global")
    || RowOn(switches, "organization:" + scope.organization)
    || RowOn(switches, "connection:" + scope.connection)
    || RowOn(switches, "campaign:" + scope.campaign)
  }

  /** A signal of one of the four stands. */
  predicate AnySignalOn(signals: set<Signal>, scope: Scope) {
    || KillSignal("global") in signals
    || KillSignal("organization:" + scope.organization) in signals
    || KillSignal("connection:" + scope.connection) in signals
    || KillSignal("campaign:" + scope.campaign) in signals
  }

  lemma ScopesAreNamed(scope: Scope)
    ensures forall s :: s in KillScopes(scope) <==> Names(s, scope)
  {
  }

  lemma RowsOnWhen(switches: map<string, bool>, scope: Scope)
    ensures SwitchOn(switches, scope) <==> AnyRowOn(switches, scope)
  {
    ScopesAreNamed(scope);
    hide KillScopes;
    assert Names("global", scope) && Names("organization:" + scope.organization, scope)
           && Names("connection:" + scope.connection, scope) && Names("campaign:" + scope.campaign, scope);
  }

  lemma SignalsOnWhen(signals: set<Signal>, scope: Scope)
    ensures Signalled(signals, scope) <==> AnySignalOn(signals, scope)
  {
    ScopesAreNamed(scope);
    hide KillScopes;
    assert Names("global", scope) && Names("organization:" + scope.organization, scope)
           && Names("connection:" + scope.connection, scope) && Names("campaign:" + scope.campaign, scope);
  }

  /**
   * A row or a signal of one of the four refuses every start, both reservations of the mandate path, the consumption and the
   * last check of a change of the scope.
   */
  lemma NamedSwitchStops(l: Ledger, signals: set<Signal>, s: string, change: PreparedChange, id: string, now: int)
    requires Names(s, change.scope) && (RowOn(l.switches, s) || KillSignal(s) in signals)
    ensures !SendOnce(l, signals, change, id, now).1.Moved? && !ConsumeReserved(l, signals, change, id, now).1.Moved?
    ensures !DispatchAllowed(l, signals, id, change.scope, now)
    ensures RowOn(l.switches, s) ==>
              && !ConsumeRows(l, change, id, now).1.Moved?
              && !MandateReserve(l, signals, change, id, now).1.Moved? && !MandateSend(l, signals, change, id, now).1.Moved?
  {
    hide AnyUnknown, AnyActive, Applicable, Consumable, MandateProblem, BindingProblem, QuotaProblem, Exposure, StepPercent, ConsumedBy,
         KeyOf, SwitchOn, Signalled;
    RowsOnWhen(l.switches, change.scope);
    SignalsOnWhen(signals, change.scope);
  }

  /** The answers to a change are the same before and after a kill switch operator's commit. */
  ghost predicate SameAnswers(l: Ledger, signals: set<Signal>, other: Ledger, others: set<Signal>, change: PreparedChange) {
    forall id, now ::
      && SendOnce(other, others, change, id, now).1 == SendOnce(l, signals, change, id, now).1
      && ConsumeReserved(other, others, change, id, now).1 == ConsumeReserved(l, signals, change, id, now).1
      && MandateReserve(other, others, change, id, now).1 == MandateReserve(l, signals, change, id, now).1
      && MandateSend(other, others, change, id, now).1 == MandateSend(l, signals, change, id, now).1
      && DispatchAllowed(other, others, id, change.scope, now) == DispatchAllowed(l, signals, id, change.scope, now)
  }

  /** A row or a signal of any other name, such as another campaign's, changes no answer. */
  lemma OtherSwitchesStopNothing(l: Ledger, signals: set<Signal>, s: string, on: bool, change: PreparedChange)
    requires !Names(s, change.scope)
    ensures SameAnswers(l, signals, l, signals + {KillSignal(s)}, change)
    ensures SameAnswers(l, signals, l, signals - {KillSignal(s)}, change)
    ensures SameAnswers(l, signals, SetSwitch(l, s, on), signals, change)
  {
    hide SameAnswers, SwitchOn, Signalled, AnyRowOn, AnySignalOn;
    SameSignals(l, signals, signals + {KillSignal(s)}, s, change);
    SameSignals(l, signals, signals - {KillSignal(s)}, s, change);
    SameRows(l, signals, SetSwitch(l, s, on), s, change);
  }

  lemma SameSignals(l: Ledger, signals: set<Signal>, others: set<Signal>, s: string, change: PreparedChange)
    requires !Names(s, change.scope)
    requires forall signal :: signal != KillSignal(s) ==> (signal in others <==> signal in signals)
    ensures SameAnswers(l, signals, l, others, change)
  {
    hide AnyUnknown, AnyActive, Applicable, Consumable, BindingProblem, QuotaProblem, Exposure, StepPercent, ConsumedBy,
         KeyOf, SwitchOn, Signalled;
    SignalsOnWhen(signals, change.scope);
    SignalsOnWhen(others, change.scope);
  }

  lemma SameRows(l: Ledger, signals: set<Signal>, other: Ledger, s: string, change: PreparedChange)
    requires !Names(s, change.scope) && other == l.(switches := other.switches)
    requires forall name :: name != s ==> (RowOn(other.switches, name) <==> RowOn(l.switches, name))
    ensures SameAnswers(l, signals, other, signals, change)
  {
    hide SendOnce, ConsumeReserved, MandateReserve, MandateSend, DispatchAllowed, SwitchOn;
    RowsOnWhen(l.switches, change.scope);
    RowsOnWhen(other.switches, change.scope);
    forall id, now
      ensures SendOnce(other, signals, change, id, now).1 == SendOnce(l, signals, change, id, now).1
      ensures ConsumeReserved(other, signals, change, id, now).1 == ConsumeReserved(l, signals, change, id, now).1
      ensures MandateReserve(other, signals, change, id, now).1 == MandateReserve(l, signals, change, id, now).1
      ensures MandateSend(other, signals, change, id, now).1 == MandateSend(l, signals, change, id, now).1
      ensures DispatchAllowed(other, signals, id, change.scope, now) == DispatchAllowed(l, signals, id, change.scope, now)
    {
      SameApprovalRows(l, signals, other, change, id, now);
      SameMandateRows(l, signals, other, change, id, now);
    }
  }

  lemma SameApprovalRows(l: Ledger, signals: set<Signal>, other: Ledger, change: PreparedChange, id: string, now: int)
    requires other == l.(switches := other.switches) && SwitchOn(other.switches, change.scope) == SwitchOn(l.switches, change.scope)
    ensures SendOnce(other, signals, change, id, now).1 == SendOnce(l, signals, change, id, now).1
    ensures ConsumeReserved(other, signals, change, id, now).1 == ConsumeReserved(l, signals, change, id, now).1
  {
    hide KeyOf, SwitchOn, Signalled;
  }

  lemma SameMandateRows(l: Ledger, signals: set<Signal>, other: Ledger, change: PreparedChange, id: string, now: int)
    requires other == l.(switches := other.switches) && SwitchOn(other.switches, change.scope) == SwitchOn(l.switches, change.scope)
    ensures MandateReserve(other, signals, change, id, now).1 == MandateReserve(l, signals, change, id, now).1
    ensures MandateSend(other, signals, change, id, now).1 == MandateSend(l, signals, change, id, now).1
    ensures DispatchAllowed(other, signals, id, change.scope, now) == DispatchAllowed(l, signals, id, change.scope, now)
  {
    hide KeyOf, SwitchOn, Signalled, Exposure, StepPercent, BindingProblem, QuotaProblem;
    forall exposure | id in l.mandates ensures QuotaProblem(other, id, change, exposure, now) == QuotaProblem(l, id, change, exposure, now) {
      SameQuota(l, other, id, change, exposure, now);
    }
  }

  lemma SameQuota(l: Ledger, other: Ledger, id: string, change: PreparedChange, exposure: int, now: int)
    requires other == l.(switches := other.switches) && id in l.mandates
    ensures QuotaProblem(other, id, change, exposure, now) == QuotaProblem(l, id, change, exposure, now)
  {
  }
}
