/** Exactly when each transaction of the goal lifecycle is granted, field by field. */
module GoalGrants {
  import opened Basics
  import opened GoalStore

  /** The authority is ready, of the expected principal, for this use and action, unexpired and within its quota. */
  predicate AuthorizedFor(row: Authority, use: AuthorityUse, action: GoalAction, who: Principals, now: int) {
    && (row.terms.kind == ByApproval ==>
          row.status == Available && row.terms.principal == who.approver.0 && row.terms.authentication == who.approver.1)
    && (row.terms.kind == ByMandate ==>
          row.status == Active && row.terms.principal == who.issuer.0 && row.terms.authentication == who.issuer.1)
    && row.terms.proposal == use.proposal && row.terms.counter == use.counter && row.terms.zone == use.zone
    && action in row.terms.actions && row.terms.policy == use.policy && row.terms.binding == use.binding
    && now < row.terms.expires && row.used < row.terms.quota
  }

  /** The reservation is free, unexpired, and for a goal of this scope, proposal and credential profile. */
  predicate RoomFor(row: Reservation, plan: CreationPlan, now: int) {
    && row.status == Free && now < row.terms.expires
    && row.terms.scope == plan.scope && row.terms.objectType == "METRIKA_GOAL"
    && row.terms.proposal == plan.use.proposal && row.terms.profile == plan.profile
  }

  /**
   * A goal creation is started if and only if its authority allows goal authoring for its proposal, counter, zone, policy and
   * binding, its reservation has room for it, and nobody claimed its signature; all four rows are then written, and otherwise none.
   */
  lemma CreationStartsWhen(t: GoalTables, plan: CreationPlan, who: Principals, now: int)
    ensures var r, use := BeginCreation(t, plan, who, now), plan.use;
            var claim := SignatureKey(use.counter, plan.signature);
            && (plan.execution in t.executions ==>
                  r.0 == t && (r.1 == Ok(false) <==> t.executions[plan.execution].plan == plan.hash) && r.1 != Ok(true))
            && (plan.execution !in t.executions ==>
                  && (r.1.Ok? <==>
                        && use.authority in t.authorities && AuthorizedFor(t.authorities[use.authority], use, GoalAuthoring, who, now)
                        && plan.reservation in t.reservations && RoomFor(t.reservations[plan.reservation], plan, now)
                        && claim !in t.claims)
                  && (r.1.Rejected? ==> r.0 == t)
                  && (r.1.Ok? ==>
                        && r.1.value
                        && r.0 == t.(
                             authorities := t.authorities[use.authority :=
                               t.authorities[use.authority].(status := AuthorityStatus.Reserved, holder := Some(plan.execution))],
                             executions := t.executions[plan.execution :=
                               Execution(GoalAuthoring, plan.candidate, plan.run, use.proposal, use.counter, plan.hash, InFlight, "")],
                             claims := t.claims[claim := plan.execution],
                             reservations := t.reservations[plan.reservation :=
                               t.reservations[plan.reservation].(status := Held, execution := Some(plan.execution), run := Some(plan.run))])))
  {
  }

  /** A publication is started if and only if the candidate is unpublished and its authority allows publishing it. */
  lemma PublicationStartsWhen(t: GoalTables, plan: PublicationPlan, who: Principals, now: int)
    requires plan.candidate in t.candidates
    ensures var r, id, candidate := BeginPublication(t, plan, who, now), plan.use.authority, t.candidates[plan.candidate];
            && (plan.execution in t.executions ==>
                  r.0 == t && (r.1 == Ok(false) <==> t.executions[plan.execution].plan == plan.hash) && r.1 != Ok(true))
            && (plan.execution !in t.executions ==>
                  && (r.1.Ok? <==>
                        && plan.candidate !in t.publications && id in t.authorities
                        && AuthorizedFor(t.authorities[id], plan.use.(proposal := candidate.proposal, counter := candidate.counter),
                                         SitePublish, who, now))
                  && (r.1.Rejected? ==> r.0 == t)
                  && (r.1.Ok? ==>
                        && r.1.value
                        && r.0 == t.(
                             authorities := t.authorities[id :=
                               t.authorities[id].(status := AuthorityStatus.Reserved, holder := Some(plan.execution))],
                             executions := t.executions[plan.execution :=
                               Execution(SitePublish, plan.candidate, candidate.run, candidate.proposal, candidate.counter, plan.hash, InFlight, "")])))
  {
  }

  /** The execution is of this operation and not yet applied, for this candidate, and holds the authority. */
  predicate Completable(t: GoalTables, execution: string, operation: GoalAction, candidate: string, authority: string) {
    && execution in t.executions && t.executions[execution].operation == operation && t.executions[execution].status != Applied
    && t.executions[execution].candidate == candidate
    && authority in t.authorities && t.authorities[authority].status == AuthorityStatus.Reserved
    && t.authorities[authority].holder == Some(execution)
  }

  /** An authority that was used once more: an approval is used up, a mandate when its quota is. */
  function UsedOnce(row: Authority): Authority {
    row.(used := row.used + 1, holder := None,
         status := if row.terms.kind == ByApproval then Used else if row.terms.quota <= row.used + 1 then Exhausted else Active)
  }

  /** A goal creation completes once, for the goal it created and no other candidate's, from the authority and room it holds. */
  lemma CreationCompletesWhen(t: GoalTables, execution: string, id: string, created: GoalCandidate, authority: string, reservation: string)
    ensures var r := CompleteCreation(t, execution, id, created, authority, reservation);
            && (r.1.Ok? <==>
                  && Completable(t, execution, GoalAuthoring, id, authority)
                  && (id in t.candidates ==> t.candidates[id].goal == created.goal)
                  && (id !in t.candidates ==>
                        forall c | c in t.candidates :: t.candidates[c].counter != created.counter || t.candidates[c].goal != created.goal)
                  && reservation in t.reservations && t.reservations[reservation].status == Held
                  && t.reservations[reservation].execution == Some(execution))
            && (r.1.Rejected? ==> r.0 == t)
            && (r.1.Ok? ==>
                  r.0 == t.(
                    authorities := t.authorities[authority := UsedOnce(t.authorities[authority])],
                    executions := t.executions[execution := t.executions[execution].(status := Applied, external := created.goal)],
                    reservations := t.reservations[reservation := t.reservations[reservation].(status := Spent)],
                    candidates := if id in t.candidates then t.candidates else t.candidates[id := created]))
  {
  }

  lemma PublicationCompletesWhen(t: GoalTables, execution: string, publication: Publication, authority: string)
    ensures var r, id := CompletePublication(t, execution, publication, authority), publication.candidate;
            && (r.1.Ok? <==>
                  && Completable(t, execution, SitePublish, id, authority)
                  && (id in t.publications ==> t.publications[id].published == publication.published))
            && (r.1.Rejected? ==> r.0 == t)
            && (r.1.Ok? ==>
                  r.0 == t.(
                    authorities := t.authorities[authority := UsedOnce(t.authorities[authority])],
                    executions := t.executions[execution := t.executions[execution].(status := Applied, external := publication.published)],
                    publications := if id in t.publications then t.publications else t.publications[id := publication]))
  {
  }

  /** An authority is registered once with its terms, ready for use. */
  lemma AuthorityWrittenOnce(t: GoalTables, id: string, terms: AuthorityTerms)
    ensures var r := RegisterAuthority(t, id, terms);
            && (r.1.Ok? <==>
                  terms.policy != "" && terms.binding != "" && terms.quota >= 1 && (id in t.authorities ==> t.authorities[id].terms == terms))
            && (if r.1.Ok? && id !in t.authorities
                then r.0 == t.(authorities := t.authorities[id :=
                                 Authority(terms, if terms.kind == ByApproval then Available else Active, 0, None)])
                else r.0 == t)
  {
  }

  lemma RoomWrittenOnce(t: GoalTables, id: string, terms: ReservationTerms)
    ensures var r := RegisterReservation(t, id, terms);
            && (r.1.Ok? <==> (id in t.reservations ==> t.reservations[id].terms == terms))
            && (if id !in t.reservations then r.0 == t.(reservations := t.reservations[id := Reservation(terms, Free, None, None)])
                else r.0 == t)
  {
  }

  /** An open candidate is decided once. */
  lemma DecidesWhen(t: GoalTables, candidate: string, status: CandidateStatus)
    ensures var r := Decide(t, candidate, status);
            && (r.1.Ok? <==> candidate in t.candidates && t.candidates[candidate].status == CandidateOpen)
            && (if r.1.Ok? then r.0 == t.(candidates := t.candidates[candidate := t.candidates[candidate].(status := status)]) else r.0 == t)
  {
  }

  /** A cleanup is closed if and only if the candidate is rejected and both halves are done; it frees claim and publication. */
  lemma CleanupClosesWhen(t: GoalTables, candidate: string, execution: string)
    ensures var r := FinishCleanup(t, candidate, execution);
            && (r.1.Ok? <==>
                  && candidate in t.candidates && t.candidates[candidate].status == CandidateRejected
                  && candidate in t.progress && t.progress[candidate].rolledBack && t.progress[candidate].deleted)
            && (r.1.Rejected? ==> r.0 == t)
            && (r.1.Ok? ==>
                  && (forall k :: k in r.0.claims <==> k in t.claims && t.claims[k] != execution)
                  && (forall c :: c in r.0.publications <==> c in t.publications && c != candidate)
                  && r.0.progress == t.progress[candidate := Progress(true, true, true)])
  {
  }

  /** Only an execution in flight becomes of unknown outcome. */
  lemma MarksUnknownWhen(t: GoalTables, execution: string)
    ensures var r := MarkUnknown(t, execution);
            if execution in t.executions && t.executions[execution].status == InFlight
            then r == t.(executions := t.executions[execution := t.executions[execution].(status := UnknownResult)]) else r == t
  {
  }

  /** The authorities after one is given back by the execution that holds it. */
  function GivenBack(t: GoalTables, authority: string, execution: string): map<string, Authority> {
    if authority in t.authorities && t.authorities[authority].status == AuthorityStatus.Reserved
       && t.authorities[authority].holder == Some(execution)
    then t.authorities[authority := t.authorities[authority].(
           status := if t.authorities[authority].terms.kind == ByApproval then Available else Active, holder := None)]
    else t.authorities
  }

  /** The reservations after one is given back by the execution that holds it. */
  function Vacated(t: GoalTables, reservation: string, execution: string): map<string, Reservation> {
    if reservation in t.reservations && t.reservations[reservation].status == Held
       && t.reservations[reservation].execution == Some(execution)
    then t.reservations[reservation := t.reservations[reservation].(status := Free, execution := None, run := None)]
    else t.reservations
  }

  lemma AuthorityReleased(t: GoalTables, authority: string, execution: string)
    ensures ReleaseAuthority(t, authority, execution) == t.(authorities := GivenBack(t, authority, execution))
  {
  }

  lemma RoomReleased(t: GoalTables, reservation: string, execution: string)
    ensures ReleaseReservation(t, Some(reservation), execution) == t.(reservations := Vacated(t, reservation, execution))
    ensures ReleaseReservation(t, None, execution) == t
  {
  }

  lemma OthersClaim(claims: map<SignatureKey, string>, execution: string)
    ensures forall k :: k in WithoutClaims(claims, execution) <==> k in claims && claims[k] != execution
    ensures forall k :: k in WithoutClaims(claims, execution) ==> WithoutClaims(claims, execution)[k] == claims[k]
  {
  }

  /** Aborting an execution in flight removes it with its claims, and gives back the authority and the room if it holds them. */
  lemma AbortsWhen(t: GoalTables, execution: string, authority: string, reservation: string)
    ensures var r := Abort(t, execution, authority, Some(reservation));
            && Abort(t, execution, authority, None) == r.(reservations := t.reservations)
            && if execution in t.executions && t.executions[execution].status == InFlight then
                 && (forall k :: k in r.claims <==> k in t.claims && t.claims[k] != execution)
                 && (forall k :: k in r.claims ==> r.claims[k] == t.claims[k])
                 && r == t.(executions := t.executions - {execution}, claims := r.claims,
                            authorities := GivenBack(t, authority, execution), reservations := Vacated(t, reservation, execution))
               else r == t
  {
    hide ReleaseAuthority, ReleaseReservation, WithoutClaims, GivenBack;
    AuthorityReleased(t, authority, execution);
    RoomReleased(ReleaseAuthority(t, authority, execution), reservation, execution);
    OthersClaim(t.claims, execution);
  }
}
