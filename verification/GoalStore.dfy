/** The goal lifecycle tables: authorities, reservations, executions, signature claims, candidates and publications. */
module GoalStore {
  import opened Basics

  datatype AuthorityKind = ByApproval | ByMandate

  datatype AuthorityStatus = Available | Active | Reserved | Used | Exhausted

  datatype GoalAction = GoalAuthoring | SitePublish

  /** The signed, immutable part of an authority. */
  datatype AuthorityTerms = AuthorityTerms(
    kind: AuthorityKind, principal: string, authentication: string, proposal: string, counter: string, zone: string,
    actions: set<GoalAction>, policy: string, binding: string, quota: int, expires: int)

  datatype Authority = Authority(terms: AuthorityTerms, status: AuthorityStatus, used: int, holder: Option<string>)

  datatype ReservationStatus = Free | Held | Spent

  datatype ReservationTerms = ReservationTerms(scope: string, objectType: string, proposal: string, profile: string, expires: int)

  datatype Reservation = Reservation(terms: ReservationTerms, status: ReservationStatus, execution: Option<string>, run: Option<string>)

  datatype ExecutionStatus = InFlight | Applied | UnknownResult

  datatype Execution = Execution(
    operation: GoalAction, candidate: string, run: string, proposal: string, counter: string, plan: string,
    status: ExecutionStatus, external: string)

  datatype SignatureKey = SignatureKey(counter: string, signature: string)

  datatype CandidateStatus = CandidateOpen | CandidateApproved | CandidateRejected

  datatype GoalCandidate = GoalCandidate(
    run: string, proposal: string, counter: string, goal: string, event: string, location: string, status: CandidateStatus)

  datatype Publication = Publication(
    candidate: string, run: string, zone: string, event: string, selector: string, previous: string, published: string)

  datatype Progress = Progress(rolledBack: bool, deleted: bool, completed: bool)

  datatype GoalTables = GoalTables(
    authorities: map<string, Authority>,
    reservations: map<string, Reservation>,
    executions: map<string, Execution>,
    claims: map<SignatureKey, string>,
    candidates: map<string, GoalCandidate>,
    publications: map<string, Publication>,
    progress: map<string, Progress>)

  const EMPTY_TABLES := GoalTables(map[], map[], map[], map[], map[], map[], map[])

  // ---------- registering ----------

  function Ready(kind: AuthorityKind): AuthorityStatus {
    if kind == ByApproval then Available else Active
  }

  function RegisterAuthority(t: GoalTables, id: string, terms: AuthorityTerms): (GoalTables, Result<()>) {
    if terms.policy == "" || terms.binding == "" || terms.quota < 1 then (t, Rejected("AUTHORITY_INVALID"))
    else if id in t.authorities then
      if t.authorities[id].terms == terms then (t, Ok(())) else (t, Rejected("IMMUTABLE_AUTHORITY_CONFLICT"))
    else (t.(authorities := t.authorities[id := Authority(terms, Ready(terms.kind), 0, None)]), Ok(()))
  }

  function RegisterReservation(t: GoalTables, id: string, terms: ReservationTerms): (GoalTables, Result<()>) {
    if id in t.reservations then
      if t.reservations[id].terms == terms then (t, Ok(())) else (t, Rejected("IMMUTABLE_RESERVATION_CONFLICT"))
    else (t.(reservations := t.reservations[id := Reservation(terms, Free, None, None)]), Ok(()))
  }

  // ---------- authority of one action ----------

  datatype Principals = Principals(approver: (string, string), issuer: (string, string))

  /** What an action asks of its authority. */
  datatype AuthorityUse = AuthorityUse(
    authority: string, proposal: string, counter: string, zone: string, policy: string, binding: string)

  predicate MayReserve(t: GoalTables, use: AuthorityUse, action: GoalAction, who: Principals, now: int) {
    && use.authority in t.authorities
    && var row := t.authorities[use.authority];
    && row.status == Ready(row.terms.kind)
    && row.terms.proposal == use.proposal && row.terms.counter == use.counter && row.terms.zone == use.zone
    && (row.terms.principal, row.terms.authentication) == (if row.terms.kind == ByApproval then who.approver else who.issuer)
    && action in row.terms.actions
    && row.terms.policy == use.policy && now < row.terms.expires && row.terms.binding == use.binding
    && row.used < row.terms.quota
  }

  function ReserveAuthority(t: GoalTables, id: string, execution: string): GoalTables
    requires id in t.authorities
  {
    t.(authorities := t.authorities[id := t.authorities[id].(status := Reserved, holder := Some(execution))])
  }

  predicate HoldsAuthority(t: GoalTables, id: string, execution: string) {
    id in t.authorities && t.authorities[id].status == Reserved && t.authorities[id].holder == Some(execution)
  }

  function SpentStatus(row: Authority): AuthorityStatus {
    if row.terms.kind == ByApproval then Used
    else if row.used + 1 >= row.terms.quota then Exhausted
    else Active
  }

  /** Completing an action uses it once. */
  function FinishAuthority(t: GoalTables, id: string): GoalTables
    requires id in t.authorities
  {
    var row := t.authorities[id];
    t.(authorities := t.authorities[id := row.(status := SpentStatus(row), used := row.used + 1, holder := None)])
  }

  function ReleaseAuthority(t: GoalTables, id: string, execution: string): GoalTables {
    if HoldsAuthority(t, id, execution)
    then t.(authorities := t.authorities[id := t.authorities[id].(status := Ready(t.authorities[id].terms.kind), holder := None)])
    else t
  }

  // ---------- begin, complete, abort ----------

  datatype CreationPlan = CreationPlan(
    execution: string, run: string, candidate: string, use: AuthorityUse, reservation: string, scope: string, profile: string,
    signature: string, hash: string)

  /** `Ok(true)` when newly started, `Ok(false)` when the same plan had been started before. */
  function BeginCreation(t: GoalTables, plan: CreationPlan, who: Principals, now: int): (GoalTables, Result<bool>) {
    var use := plan.use;
    var claim := SignatureKey(use.counter, plan.signature);
    if plan.execution in t.executions then
      if t.executions[plan.execution].plan != plan.hash then (t, Rejected("EXECUTION_PLAN_CHANGED")) else (t, Ok(false))
    else if !MayReserve(t, use, GoalAuthoring, who, now) then (t, Rejected("AUTHORITY_INVALID"))
    else if plan.reservation !in t.reservations || t.reservations[plan.reservation].status != Free
            || t.reservations[plan.reservation].terms.scope != plan.scope
            || t.reservations[plan.reservation].terms.objectType != "METRIKA_GOAL"
            || t.reservations[plan.reservation].terms.proposal != use.proposal
            || t.reservations[plan.reservation].terms.profile != plan.profile
            || t.reservations[plan.reservation].terms.expires <= now
    then (t, Rejected("CREATION_RESERVATION_INVALID"))
    else if claim in t.claims then (t, Rejected("DUPLICATE_GOAL_CANDIDATE"))
    else
      var execution := Execution(GoalAuthoring, plan.candidate, plan.run, use.proposal, use.counter, plan.hash, InFlight, "");
      var held := t.reservations[plan.reservation].(status := Held, execution := Some(plan.execution), run := Some(plan.run));
      (ReserveAuthority(t, use.authority, plan.execution).(
         executions := t.executions[plan.execution := execution],
         claims := t.claims[claim := plan.execution],
         reservations := t.reservations[plan.reservation := held]),
       Ok(true))
  }

  datatype PublicationPlan = PublicationPlan(execution: string, candidate: string, use: AuthorityUse, hash: string)

  /** A publication uses its authority for the candidate's own proposal and counter. */
  function PublicationUse(plan: PublicationPlan, candidate: GoalCandidate): AuthorityUse {
    plan.use.(proposal := candidate.proposal, counter := candidate.counter)
  }

  function BeginPublication(t: GoalTables, plan: PublicationPlan, who: Principals, now: int): (GoalTables, Result<bool>)
    requires plan.candidate in t.candidates
  {
    var candidate := t.candidates[plan.candidate];
    if plan.execution in t.executions then
      if t.executions[plan.execution].plan != plan.hash then (t, Rejected("EXECUTION_PLAN_CHANGED")) else (t, Ok(false))
    else if plan.candidate in t.publications then (t, Rejected("SITE_EVENT_ALREADY_PUBLISHED"))
    else if !MayReserve(t, PublicationUse(plan, candidate), SitePublish, who, now) then (t, Rejected("AUTHORITY_INVALID"))
    else
      var execution := Execution(SitePublish, plan.candidate, candidate.run, candidate.proposal, candidate.counter, plan.hash, InFlight, "");
      (ReserveAuthority(t, plan.use.authority, plan.execution).(executions := t.executions[plan.execution := execution]), Ok(true))
  }

  predicate Reconcilable(t: GoalTables, execution: string, operation: GoalAction) {
    execution in t.executions && t.executions[execution].operation == operation && t.executions[execution].status != Applied
  }

  function Applying(t: GoalTables, execution: string, external: string): GoalTables
    requires execution in t.executions
  {
    t.(executions := t.executions[execution := t.executions[execution].(status := Applied, external := external)])
  }

  predicate GoalTaken(t: GoalTables, candidate: GoalCandidate) {
    exists c | c in t.candidates :: t.candidates[c].counter == candidate.counter && t.candidates[c].goal == candidate.goal
  }

  function CompleteCreation(t: GoalTables, execution: string, id: string, candidate: GoalCandidate, authority: string, reservation: string)
    : (GoalTables, Result<()>)
  {
    if !Reconcilable(t, execution, GoalAuthoring) then (t, Rejected("EXECUTION_NOT_RECONCILABLE"))
    else if id in t.candidates && t.candidates[id].goal != candidate.goal then (t, Rejected("CREATED_TARGET_CONFLICT"))
    else if id !in t.candidates && GoalTaken(t, candidate) then (t, Rejected("UNIQUE constraint failed: goal_candidates"))
    else if !HoldsAuthority(t, authority, execution) then (t, Rejected("AUTHORITY_INVALID"))
    else if reservation !in t.reservations || t.reservations[reservation].status != Held
            || t.reservations[reservation].execution != Some(execution)
    then (t, Rejected("CREATION_RESERVATION_INVALID"))
    else if t.executions[execution].candidate != id then (t, Rejected("CREATED_TARGET_CONFLICT"))
    else
      (Applying(FinishAuthority(t, authority), execution, candidate.goal).(
         candidates := if id in t.candidates then t.candidates else t.candidates[id := candidate],
         reservations := t.reservations[reservation := t.reservations[reservation].(status := Spent)]),
       Ok(()))
  }

  function CompletePublication(t: GoalTables, execution: string, publication: Publication, authority: string)
    : (GoalTables, Result<()>)
  {
    var id := publication.candidate;
    if !Reconcilable(t, execution, SitePublish) then (t, Rejected("EXECUTION_NOT_RECONCILABLE"))
    else if id in t.publications && t.publications[id].published != publication.published then
      (t, Rejected("CREATED_TARGET_CONFLICT"))
    else if !HoldsAuthority(t, authority, execution) then (t, Rejected("AUTHORITY_INVALID"))
    else if t.executions[execution].candidate != id then (t, Rejected("CREATED_TARGET_CONFLICT"))
    else
      (Applying(FinishAuthority(t, authority), execution, publication.published).(
         publications := if id in t.publications then t.publications else t.publications[id := publication]),
       Ok(()))
  }

  function MarkUnknown(t: GoalTables, execution: string): GoalTables {
    if execution in t.executions && t.executions[execution].status == InFlight
    then t.(executions := t.executions[execution := t.executions[execution].(status := UnknownResult)]) else t
  }

  /** Every claim except those of one execution. */
  function WithoutClaims(claims: map<SignatureKey, string>, execution: string): map<SignatureKey, string> {
    map k | k in claims && claims[k] != execution :: claims[k]
  }

  function ReleaseReservation(t: GoalTables, reservation: Option<string>, execution: string): GoalTables {
    if reservation.Some? && reservation.value in t.reservations && t.reservations[reservation.value].execution == Some(execution)
       && t.reservations[reservation.value].status == Held
    then t.(reservations := t.reservations[reservation.value :=
              t.reservations[reservation.value].(status := Free, execution := None, run := None)])
    else t
  }

  /** Undoes a begin whose write was never made. */
  function Abort(t: GoalTables, execution: string, authority: string, reservation: Option<string>): GoalTables {
    if execution !in t.executions || t.executions[execution].status != InFlight then t
    else
      var released := ReleaseReservation(ReleaseAuthority(t, authority, execution), reservation, execution);
      released.(claims := WithoutClaims(t.claims, execution), executions := t.executions - {execution})
  }

  function Decide(t: GoalTables, candidate: string, status: CandidateStatus): (GoalTables, Result<()>) {
    if candidate !in t.candidates || t.candidates[candidate].status != CandidateOpen then
      (t, Rejected("SEMANTIC_DECISION_NOT_ALLOWED"))
    else (t.(candidates := t.candidates[candidate := t.candidates[candidate].(status := status)]), Ok(()))
  }

  // ---------- cleanup progress ----------

  function ProgressOf(t: GoalTables, candidate: string): Progress {
    if candidate in t.progress then t.progress[candidate] else Progress(false, false, false)
  }

  function BeginCleanup(t: GoalTables, candidate: string): GoalTables {
    t.(progress := t.progress[candidate := ProgressOf(t, candidate)])
  }

  function MarkRolledBack(t: GoalTables, candidate: string): GoalTables {
    if candidate in t.progress then t.(progress := t.progress[candidate := t.progress[candidate].(rolledBack := true)]) else t
  }

  function MarkDeleted(t: GoalTables, candidate: string): GoalTables {
    if candidate in t.progress then t.(progress := t.progress[candidate := t.progress[candidate].(deleted := true)]) else t
  }

  function FinishCleanup(t: GoalTables, candidate: string, execution: string): (GoalTables, Result<()>) {
    if candidate !in t.candidates || t.candidates[candidate].status != CandidateRejected then
      (t, Rejected("ONLY_REJECTED_CANDIDATE_CAN_BE_CLEANED"))
    else if candidate !in t.progress || !t.progress[candidate].rolledBack || !t.progress[candidate].deleted then
      (t, Rejected("CLEANUP_INCOMPLETE"))
    else
      (t.(claims := WithoutClaims(t.claims, execution),
          publications := t.publications - {candidate},
          progress := t.progress[candidate := t.progress[candidate].(completed := true)]),
       Ok(()))
  }

  // ---------- the store object ----------

  class GoalLifecycleStore {
    var authorities: map<string, Authority>
    var reservations: map<string, Reservation>
    var executions: map<string, Execution>
    var claims: map<SignatureKey, string>
    var candidates: map<string, GoalCandidate>
    var publications: map<string, Publication>
    var progress: map<string, Progress>

    constructor ()
      ensures View() == EMPTY_TABLES
    {
      authorities, reservations, executions, claims := map[], map[], map[], map[];
      candidates, publications, progress := map[], map[], map[];
    }

    function View(): GoalTables
      reads this
    {
      GoalTables(authorities, reservations, executions, claims, candidates, publications, progress)
    }

    method RegisterGoalAuthority(id: string, terms: AuthorityTerms) returns (result: Result<()>)
      modifies this`authorities
      ensures (View(), result) == RegisterAuthority(old(View()), id, terms)
    {
      if terms.policy == "" || terms.binding == "" || terms.quota < 1 {
        return Rejected("AUTHORITY_INVALID");
      }
      if id in authorities {
        return if authorities[id].terms == terms then Ok(()) else Rejected("IMMUTABLE_AUTHORITY_CONFLICT");
      }
      authorities := authorities[id := Authority(terms, Ready(terms.kind), 0, None)];
      result := Ok(());
    }

    method RegisterGoalReservation(id: string, terms: ReservationTerms) returns (result: Result<()>)
      modifies this`reservations
      ensures (View(), result) == RegisterReservation(old(View()), id, terms)
    {
      if id in reservations {
        return if reservations[id].terms == terms then Ok(()) else Rejected("IMMUTABLE_RESERVATION_CONFLICT");
      }
      reservations := reservations[id := Reservation(terms, Free, None, None)];
      result := Ok(());
    }

    /** One transaction: authority, reservation, execution and signature claim are taken together or not at all. */
    method BeginGoalCreation(plan: CreationPlan, who: Principals, now: int) returns (result: Result<bool>)
      modifies this
      ensures (View(), result) == BeginCreation(old(View()), plan, who, now)
    {
      var use := plan.use;
      var claim := SignatureKey(use.counter, plan.signature);
      if plan.execution in executions {
        return if executions[plan.execution].plan != plan.hash then Rejected("EXECUTION_PLAN_CHANGED") else Ok(false);
      }
      if !MayReserve(View(), use, GoalAuthoring, who, now) {
        return Rejected("AUTHORITY_INVALID");
      }
      if plan.reservation !in reservations {
        return Rejected("CREATION_RESERVATION_INVALID");
      }
      var row := reservations[plan.reservation];
      if row.status != Free || row.terms.scope != plan.scope || row.terms.objectType != "METRIKA_GOAL"
         || row.terms.proposal != use.proposal || row.terms.profile != plan.profile || row.terms.expires <= now
      {
        return Rejected("CREATION_RESERVATION_INVALID");
      }
      if claim in claims {
        return Rejected("DUPLICATE_GOAL_CANDIDATE");
      }
      var authority := authorities[use.authority];
      authorities := authorities[use.authority := authority.(status := Reserved, holder := Some(plan.execution))];
      executions := executions[plan.execution :=
        Execution(GoalAuthoring, plan.candidate, plan.run, use.proposal, use.counter, plan.hash, InFlight, "")];
      claims := claims[claim := plan.execution];
      reservations := reservations[plan.reservation := row.(status := Held, execution := Some(plan.execution), run := Some(plan.run))];
      result := Ok(true);
    }

    method BeginSitePublication(plan: PublicationPlan, who: Principals, now: int) returns (result: Result<bool>)
      requires plan.candidate in candidates
      modifies this`authorities, this`executions
      ensures (View(), result) == BeginPublication(old(View()), plan, who, now)
    {
      var candidate := candidates[plan.candidate];
      if plan.execution in executions {
        return if executions[plan.execution].plan != plan.hash then Rejected("EXECUTION_PLAN_CHANGED") else Ok(false);
      }
      if plan.candidate in publications {
        return Rejected("SITE_EVENT_ALREADY_PUBLISHED");
      }
      if !MayReserve(View(), PublicationUse(plan, candidate), SitePublish, who, now) {
        return Rejected("AUTHORITY_INVALID");
      }
      var authority := authorities[plan.use.authority];
      authorities := authorities[plan.use.authority := authority.(status := Reserved, holder := Some(plan.execution))];
      executions := executions[plan.execution :=
        Execution(SitePublish, plan.candidate, candidate.run, candidate.proposal, candidate.counter, plan.hash, InFlight, "")];
      result := Ok(true);
    }

    method CompleteGoalCreation(execution: string, id: string, candidate: GoalCandidate, authority: string, reservation: string)
      returns (result: Result<()>)
      modifies this
      ensures (View(), result) == CompleteCreation(old(View()), execution, id, candidate, authority, reservation)
    {
      if !Reconcilable(View(), execution, GoalAuthoring) {
        return Rejected("EXECUTION_NOT_RECONCILABLE");
      }
      if id in candidates && candidates[id].goal != candidate.goal {
        return Rejected("CREATED_TARGET_CONFLICT");
      }
      if id !in candidates && GoalTaken(View(), candidate) {
        return Rejected("UNIQUE constraint failed: goal_candidates");
      }
      if !HoldsAuthority(View(), authority, execution) {
        return Rejected("AUTHORITY_INVALID");
      }
      if reservation !in reservations || reservations[reservation].status != Held
         || reservations[reservation].execution != Some(execution)
      {
        return Rejected("CREATION_RESERVATION_INVALID");
      }
      if executions[execution].candidate != id {
        return Rejected("CREATED_TARGET_CONFLICT");
      }
      if id !in candidates {
        candidates := candidates[id := candidate];
      }
      var row := authorities[authority];
      authorities := authorities[authority := row.(status := SpentStatus(row), used := row.used + 1, holder := None)];
      reservations := reservations[reservation := reservations[reservation].(status := Spent)];
      executions := executions[execution := executions[execution].(status := Applied, external := candidate.goal)];
      result := Ok(());
    }

    method CompleteSitePublication(execution: string, publication: Publication, authority: string) returns (result: Result<()>)
      modifies this
      ensures (View(), result) == CompletePublication(old(View()), execution, publication, authority)
    {
      var id := publication.candidate;
      if !Reconcilable(View(), execution, SitePublish) {
        return Rejected("EXECUTION_NOT_RECONCILABLE");
      }
      if id in publications && publications[id].published != publication.published {
        return Rejected("CREATED_TARGET_CONFLICT");
      }
      if !HoldsAuthority(View(), authority, execution) {
        return Rejected("AUTHORITY_INVALID");
      }
      if executions[execution].candidate != id {
        return Rejected("CREATED_TARGET_CONFLICT");
      }
      if id !in publications {
        publications := publications[id := publication];
      }
      var row := authorities[authority];
      authorities := authorities[authority := row.(status := SpentStatus(row), used := row.used + 1, holder := None)];
      executions := executions[execution := executions[execution].(status := Applied, external := publication.published)];
      result := Ok(());
    }

    method MarkUnknownResult(execution: string)
      modifies this`executions
      ensures View() == MarkUnknown(old(View()), execution)
    {
      if execution in executions && executions[execution].status == InFlight {
        executions := executions[execution := executions[execution].(status := UnknownResult)];
      }
    }

    /** Gives back everything a begin had taken, in one transaction. */
    method AbortBeforeWrite(execution: string, authority: string, reservation: Option<string>)
      modifies this
      ensures View() == Abort(old(View()), execution, authority, reservation)
    {
      if execution !in executions || executions[execution].status != InFlight {
        return;
      }
      if HoldsAuthority(View(), authority, execution) {
        var row := authorities[authority];
        authorities := authorities[authority := row.(status := Ready(row.terms.kind), holder := None)];
      }
      if reservation.Some? && reservation.value in reservations {
        var row := reservations[reservation.value];
        if row.execution == Some(execution) && row.status == Held {
          reservations := reservations[reservation.value := row.(status := Free, execution := None, run := None)];
        }
      }
      claims := WithoutClaims(claims, execution);
      executions := executions - {execution};
    }

    method DecideSemantics(candidate: string, status: CandidateStatus) returns (result: Result<()>)
      modifies this`candidates
      ensures (View(), result) == Decide(old(View()), candidate, status)
    {
      if candidate !in candidates || candidates[candidate].status != CandidateOpen {
        return Rejected("SEMANTIC_DECISION_NOT_ALLOWED");
      }
      candidates := candidates[candidate := candidates[candidate].(status := status)];
      result := Ok(());
    }

    method StartCleanup(candidate: string) returns (state: Progress)
      modifies this`progress
      ensures View() == BeginCleanup(old(View()), candidate) && state == ProgressOf(old(View()), candidate)
    {
      state := ProgressOf(View(), candidate);
      progress := progress[candidate := state];
    }

    method MarkPublicationRolledBack(candidate: string)
      modifies this`progress
      ensures View() == MarkRolledBack(old(View()), candidate)
    {
      if candidate in progress {
        progress := progress[candidate := progress[candidate].(rolledBack := true)];
      }
    }

    method MarkGoalDeleted(candidate: string)
      modifies this`progress
      ensures View() == MarkDeleted(old(View()), candidate)
    {
      if candidate in progress {
        progress := progress[candidate := progress[candidate].(deleted := true)];
      }
    }

    method CloseCleanup(candidate: string, execution: string) returns (result: Result<()>)
      modifies this`claims, this`publications, this`progress
      ensures (View(), result) == FinishCleanup(old(View()), candidate, execution)
    {
      if candidate !in candidates || candidates[candidate].status != CandidateRejected {
        return Rejected("ONLY_REJECTED_CANDIDATE_CAN_BE_CLEANED");
      }
      if candidate !in progress || !progress[candidate].rolledBack || !progress[candidate].deleted {
        return Rejected("CLEANUP_INCOMPLETE");
      }
      claims := WithoutClaims(claims, execution);
      publications := publications - {candidate};
      progress := progress[candidate := progress[candidate].(completed := true)];
      result := Ok(());
    }
  }
}
