/** What a saga was granted for: its approval and its reservation fit its plan, field by field, in every run. */
module SagaGrants {
  import opened Basics
  import opened CampaignTypes
  import opened SagaStore
  import opened SagaService
  import opened SagaMachine
  import opened SagaSafety
  import opened SagaInvariant
  import opened SagaRuns
  import opened SagaTheorems
  import opened SagaPublished

  // ---------- what must fit ----------

  /** Signed, for this proposal, and bound to every field of the plan but the approval's own identifier. */
  predicate ApprovalFits(approval: Approval, plan: Plan) {
    var bound, request := approval.binding.request, plan.request;
    && approval.signed && approval.proposal == request.proposal
    && approval.binding.policy == plan.policy && bound.approval == ""
    && bound.run == request.run && bound.execution == request.execution && bound.proposal == request.proposal
    && bound.account == request.account && bound.profile == request.profile && bound.reservation == request.reservation
    && bound.draft.campaignType == request.draft.campaignType && bound.draft.terms == request.draft.terms
    && bound.draft.group == request.draft.group
  }

  /** For this account, object type, proposal and credential profile. */
  predicate ReservationFits(reservation: Reservation, plan: Plan) {
    && reservation.account == plan.request.account && reservation.objectType == plan.request.draft.campaignType
    && reservation.proposal == plan.request.proposal && reservation.profile == plan.request.profile
  }

  /** Everything a new execution needs, with an approver and a time. */
  predicate MayStart(st: Store, plan: Plan, now: int, approver: Principal) {
    var request := plan.request;
    && request.run !in st.runs
    && request.reservation in st.reservations && request.approval in st.approvals
    && var reservation, approval := st.reservations[request.reservation], st.approvals[request.approval];
    && reservation.status == Available && now < reservation.expires && ReservationFits(reservation, plan)
    && approval.status == Available && now < approval.expires && ApprovalFits(approval, plan)
    && approval.approver == approver.identity && approval.authentication == approver.authentication
  }

  /**
   * A new execution starts if and only if its run is new and an available, unexpired reservation and an available, unexpired,
   * signed approval of this approver fit its plan; both are then held for it. Otherwise nothing changes. A known execution is
   * loaded for the same plan only.
   */
  lemma StartsWhen(st: Store, plan: Plan, now: int, approver: Principal)
    ensures var r, k := StartOrLoad(st, plan, now, approver), plan.request.execution;
            && (k in st.sagas ==> r.0 == st && (r.1.Ok? <==> st.sagas[k].plan == plan) && (r.1.Ok? ==> r.1.value == st.sagas[k].status))
            && (k !in st.sagas ==>
                  && (r.1.Ok? <==> MayStart(st, plan, now, approver))
                  && (r.1.Rejected? ==> r.0 == st)
                  && (r.1.Ok? ==>
                        && r.1.value == InFlight && r.0.index == st.index
                        && r.0.sagas == st.sagas[k := SagaRecord(plan, InFlight, "", [], [], [])]
                        && r.0.runs == st.runs[plan.request.run := k]
                        && r.0.reservations == st.reservations[plan.request.reservation :=
                             st.reservations[plan.request.reservation].(status := Reserved, holder := Some(k))]
                        && r.0.approvals == st.approvals[plan.request.approval :=
                             st.approvals[plan.request.approval].(status := Reserved, holder := Some(k))]))
  {
    if plan.request.approval in st.approvals {
      BindingFits(st.approvals[plan.request.approval], plan);
      hide ApprovalFits, Binding;
    }
  }

  lemma BindingFits(approval: Approval, plan: Plan)
    ensures ApprovalFits(approval, plan)
       <==> approval.signed && approval.proposal == plan.request.proposal && approval.binding == Binding(plan)
  {
  }

  predicate SameReservation(a: Reservation, b: Reservation) {
    a.account == b.account && a.objectType == b.objectType && a.proposal == b.proposal && a.profile == b.profile && a.expires == b.expires
  }

  predicate SameApproval(a: Approval, b: Approval) {
    && a.proposal == b.proposal && a.binding == b.binding && a.approver == b.approver && a.authentication == b.authentication
    && a.expires == b.expires && a.signed == b.signed
  }

  /**
   * A reservation is registered if and only if it is free and names its account, proposal and profile, and none with other
   * terms has its identifier; it is then free, and a stored one is left as it is.
   */
  lemma ReservationWrittenOnce(st: Store, id: string, reservation: Reservation)
    ensures var r := RegisterReservation(st, id, reservation);
            && (r.1.Ok? <==>
                  && id != "" && reservation.status == Available
                  && reservation.account != "" && reservation.proposal != "" && reservation.profile != ""
                  && (id in st.reservations ==>
                        st.reservations[id].status == Available && SameReservation(st.reservations[id], reservation)))
            && (if r.1.Ok? && id !in st.reservations
                then r.0 == st.(reservations := st.reservations[id := reservation.(status := Available, holder := None)]) else r.0 == st)
  {
  }

  /** An approval is registered if and only if none with other terms has its identifier, whatever became of the stored one. */
  lemma ApprovalWrittenOnce(st: Store, id: string, approval: Approval)
    ensures var r := RegisterApproval(st, id, approval);
            && (r.1.Ok? <==> (id in st.approvals ==> SameApproval(st.approvals[id], approval)))
            && (if id !in st.approvals then r.0 == st.(approvals := st.approvals[id := approval.(status := Available, holder := None)])
                else r.0 == st)
  {
  }

  // ---------- in every run ----------

  /** Every saga's grants are there and fit its plan. */
  ghost predicate GrantsFit(st: Store) {
    forall k :: k in st.sagas ==>
      var plan := st.sagas[k].plan;
      && plan.request.reservation in st.reservations && ReservationFits(st.reservations[plan.request.reservation], plan)
      && plan.request.approval in st.approvals && ApprovalFits(st.approvals[plan.request.approval], plan)
  }

  /** Grants are never taken away and their terms never change. */
  ghost predicate TermsStay(st: Store, later: Store) {
    && (forall id :: id in st.reservations ==> id in later.reservations && SameReservation(st.reservations[id], later.reservations[id]))
    && (forall id :: id in st.approvals ==> id in later.approvals && SameApproval(st.approvals[id], later.approvals[id]))
  }

  lemma BeginTerms(c: Config, plan: Plan, now: int, approver: Principal)
    ensures TermsStay(c.sys.store, DoBegin(c, plan, now, approver).sys.store)
  {
    hide FirstPending, ValidDraft, ReservationProblem, ApprovalReservable;
  }

  lemma UseTerms(c: Config)
    ensures TermsStay(c.sys.store, DoUseAuthority(c).sys.store)
  {
    hide TermsStay, ConsumeAuthority, Settle;
    SameTerms(c.sys.store, c.sys.store);
    if c.at.Replied? && c.at.step == CampaignAdd && Running(c.sys.store, c.at.plan) {
      ConsumeTerms(c.sys.store, c.at.plan);
      SettleTerms(c.sys, c.at.plan, UnknownResult, "FIRST_WRITE_AUTHORITY_RECONCILIATION_FAILED");
    }
  }

  lemma ConsumeTerms(st: Store, plan: Plan)
    ensures TermsStay(st, ConsumeAuthority(st, plan).0)
  {
  }

  lemma SettleTerms(sys: System, plan: Plan, status: SagaStatus, detail: string)
    requires Loaded(sys.store, plan)
    ensures TermsStay(sys.store, Settle(sys, plan, status, detail).store)
  {
    SameTerms(sys.store, Settle(sys, plan, status, detail).store);
  }

  lemma NewReservationTerms(st: Store, id: string, reservation: Reservation)
    ensures TermsStay(st, RegisterReservation(st, id, reservation).0)
  {
  }

  lemma NewApprovalTerms(st: Store, id: string, approval: Approval)
    ensures TermsStay(st, RegisterApproval(st, id, approval).0)
  {
  }

  lemma SameTerms(st: Store, later: Store)
    requires later.reservations == st.reservations && later.approvals == st.approvals
    ensures TermsStay(st, later)
  {
  }

  lemma StepTerms(c: Config, event: Event)
    ensures TermsStay(c.sys.store, Next(c, event).sys.store)
  {
    hide TermsStay, DoClaim, DoSend, DoRecover, DoRegister, DoClose, DoReadOnly, DoReadStep, DoDelete, DoMark, DoFinishCompensation,
         CancelClaim, DoBegin, DoAbandon, DoFinishApplied, DoUseAuthority, RegisterReservation, RegisterApproval;
    if !SetsGrants(event) {
      GrantsElsewhere(c, event);
      SameTerms(c.sys.store, Next(c, event).sys.store);
    } else {
      match event
      case Begin(plan, now, approver) => BeginTerms(c, plan, now, approver);
      case UseAuthority => UseTerms(c);
      case AddReservation(id, reservation) => NewReservationTerms(c.sys.store, id, reservation);
      case AddApproval(id, approval) => NewApprovalTerms(c.sys.store, id, approval);
    }
  }

  /** A saga is new with grants that fit, or it was there with the same plan. */
  ghost predicate SagasFit(st: Store, later: Store) {
    forall k :: k in later.sagas ==>
      (k in st.sagas && later.sagas[k].plan == st.sagas[k].plan)
      || (var plan := later.sagas[k].plan;
          && plan.request.reservation in st.reservations && ReservationFits(st.reservations[plan.request.reservation], plan)
          && plan.request.approval in st.approvals && ApprovalFits(st.approvals[plan.request.approval], plan))
  }

  lemma BeginFits(c: Config, plan: Plan, now: int, approver: Principal)
    ensures SagasFit(c.sys.store, DoBegin(c, plan, now, approver).sys.store)
  {
    hide StartOrLoad, ApprovalFits, ReservationFits, FirstPending, ValidDraft;
    StartsWhen(c.sys.store, plan, now, approver);
  }

  lemma StepFits(c: Config, event: Event)
    requires Inv(c)
    ensures SagasFit(c.sys.store, Next(c, event).sys.store)
  {
    hide Inv, Next, DoBegin, DoClose, DoReadStep, RunStep, ApprovalFits, ReservationFits;
    NextIs(c, event);
    if event.Begin? {
      BeginFits(c, event.plan, event.now, event.approver);
    } else if event.CloseWrite? {
      CloseAddsOne(c);
    } else if event.RunReadStep? {
      ReadAddsOne(c, event.env);
    } else {
      OtherStays(c, event);
    }
  }

  lemma FitStays(st: Store, later: Store)
    requires GrantsFit(st) && TermsStay(st, later) && SagasFit(st, later)
    ensures GrantsFit(later)
  {
    forall k | k in later.sagas
      ensures var plan := later.sagas[k].plan;
              && plan.request.reservation in later.reservations && ReservationFits(later.reservations[plan.request.reservation], plan)
              && plan.request.approval in later.approvals && ApprovalFits(later.approvals[plan.request.approval], plan)
    {
      var plan := later.sagas[k].plan;
      assert SameApproval(st.approvals[plan.request.approval], later.approvals[plan.request.approval]);
    }
  }

  lemma {:induction false} RunFits(c: Config, events: seq<Event>)
    requires Inv(c) && GrantsFit(c.sys.store)
    ensures GrantsFit(RunEvents(c, events).sys.store)
    decreases |events|
  {
    hide Inv, Next, GrantsFit, TermsStay, SagasFit;
    if events != [] {
      StepInv(c, events[0]);
      StepTerms(c, events[0]);
      StepFits(c, events[0]);
      FitStays(c.sys.store, Next(c, events[0]).sys.store);
      RunFits(Next(c, events[0]), events[1..]);
    }
  }

  /**
   * In every run every saga holds a signed approval of its own proposal that is bound to its whole plan, and a reservation of
   * its account, object type, proposal and profile, and no other saga holds either.
   */
  lemma {:induction false} SagasAreGranted(first: Config, events: seq<Event>, k: string)
    requires Initial(first) && k in RunEvents(first, events).sys.store.sagas
    ensures var st := RunEvents(first, events).sys.store;
            var plan := st.sagas[k].plan;
            && plan.request.reservation in st.reservations && plan.request.approval in st.approvals
            && ReservationFits(st.reservations[plan.request.reservation], plan)
            && ApprovalFits(st.approvals[plan.request.approval], plan)
            && st.reservations[plan.request.reservation].holder == Some(k)
            && st.approvals[plan.request.approval].holder == Some(k)
  {
    hide RunEvents, Initial, Inv, ApprovalFits, ReservationFits;
    InitialInv(first);
    RunInv(first, events);
    NoSagasYet(first);
    RunFits(first, events);
    HeldBy(RunEvents(first, events), k);
  }

  lemma NoSagasYet(first: Config)
    requires Initial(first)
    ensures GrantsFit(first.sys.store)
  {
  }

  lemma {:induction false} HeldBy(c: Config, k: string)
    requires Inv(c) && k in c.sys.store.sagas
    ensures var st, plan := c.sys.store, c.sys.store.sagas[k].plan;
            && plan.request.reservation in st.reservations && plan.request.approval in st.approvals
            && st.reservations[plan.request.reservation].holder == Some(k)
            && st.approvals[plan.request.approval].holder == Some(k)
  {
    hide PositionOk, Shaped, RowsKnown, Accounted, Truthful, RepliesFit, Keyed, GrantsBound, SentOnce, Numbered;
    assert SagaOk(c.sys, k);
  }
}
