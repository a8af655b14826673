/** What the goal lifecycle tables keep over every run of their transactions. */
module GoalLedger {
  import opened Basics
  import opened GoalStore

  datatype Op =
    | NewAuthority(id: string, terms: AuthorityTerms)
    | NewReservation(id: string, room: ReservationTerms)
    | StartCreation(creation: CreationPlan, who: Principals, now: int)
    | StartPublication(publishing: PublicationPlan, who: Principals, now: int)
    | EndCreation(execution: string, id: string, created: GoalCandidate, authority: string, reservation: string)
    | EndPublication(execution: string, publication: Publication, authority: string)
    | Doubt(execution: string)
    | Undo(execution: string, authority: string, held: Option<string>)
    | Judge(candidate: string, status: CandidateStatus)
    | Clean(candidate: string)
    | CleanedSite(candidate: string)
    | CleanedGoal(candidate: string)
    | Cleaned(candidate: string, execution: string)

  function Do(t: GoalTables, op: Op): GoalTables {
    match op
    case NewAuthority(id, terms) => RegisterAuthority(t, id, terms).0
    case NewReservation(id, room) => RegisterReservation(t, id, room).0
    case StartCreation(plan, who, now) => BeginCreation(t, plan, who, now).0
    case StartPublication(plan, who, now) => if plan.candidate in t.candidates then BeginPublication(t, plan, who, now).0 else t
    case EndCreation(execution, id, created, authority, reservation) =>
      CompleteCreation(t, execution, id, created, authority, reservation).0
    case EndPublication(execution, publication, authority) => CompletePublication(t, execution, publication, authority).0
    case Doubt(execution) => MarkUnknown(t, execution)
    case Undo(execution, authority, held) => Abort(t, execution, authority, held)
    case Judge(candidate, status) => Decide(t, candidate, status).0
    case Clean(candidate) => BeginCleanup(t, candidate)
    case CleanedSite(candidate) => MarkRolledBack(t, candidate)
    case CleanedGoal(candidate) => MarkDeleted(t, candidate)
    case Cleaned(candidate, execution) => FinishCleanup(t, candidate, execution).0
  }

  function DoAll(t: GoalTables, ops: seq<Op>): GoalTables
    decreases |ops|
  {
    if ops == [] then t else DoAll(Do(t, ops[0]), ops[1..])
  }

  // ---------- what always holds ----------

  /** An authority is held exactly while reserved, and its uses stay within its quota. */
  predicate AuthorityOk(row: Authority) {
    && row.terms.quota >= 1
    && (row.status == Reserved <==> row.holder.Some?)
    && 0 <= row.used <= row.terms.quota
    && (row.status in {Available, Active, Reserved} ==> row.used < row.terms.quota)
    && (row.terms.kind == ByApproval ==> row.status in {Available, Reserved, Used} && row.used == if row.status == Used then 1 else 0)
    && (row.terms.kind == ByMandate ==> row.status in {Active, Reserved, Exhausted})
    && (row.status == Exhausted ==> row.used == row.terms.quota)
  }

  predicate ReservationOk(row: Reservation) {
    (row.status == Free <==> row.execution.None?) && (row.status == Free <==> row.run.None?)
  }

  ghost predicate AuthoritiesOk(t: GoalTables) {
    forall id :: id in t.authorities ==> AuthorityOk(t.authorities[id])
  }

  ghost predicate ReservationsOk(t: GoalTables) {
    forall id :: id in t.reservations ==> ReservationOk(t.reservations[id])
  }

  /** A claim belongs to one creation execution, and an execution has at most one claim. */
  ghost predicate ClaimsOk(t: GoalTables) {
    && (forall k :: k in t.claims ==> t.claims[k] in t.executions && t.executions[t.claims[k]].operation == GoalAuthoring)
    && (forall k, other :: k in t.claims && other in t.claims && t.claims[k] == t.claims[other] ==> k == other)
  }

  ghost predicate TablesOk(t: GoalTables) {
    AuthoritiesOk(t) && ReservationsOk(t) && ClaimsOk(t)
  }

  lemma RegisterAuthorityKeeps(t: GoalTables, id: string, terms: AuthorityTerms)
    requires TablesOk(t)
    ensures TablesOk(RegisterAuthority(t, id, terms).0)
  {
    hide ReservationOk;
  }

  lemma RegisterReservationKeeps(t: GoalTables, id: string, room: ReservationTerms)
    requires TablesOk(t)
    ensures TablesOk(RegisterReservation(t, id, room).0)
  {
    hide AuthorityOk;
  }

  lemma MayReserveKnown(t: GoalTables, use: AuthorityUse, action: GoalAction, who: Principals, now: int)
    requires MayReserve(t, use, action, who, now)
    ensures use.authority in t.authorities
  {
  }

  lemma ReserveKeeps(t: GoalTables, use: AuthorityUse, action: GoalAction, who: Principals, now: int, execution: string)
    requires AuthoritiesOk(t) && MayReserve(t, use, action, who, now)
    ensures AuthoritiesOk(ReserveAuthority(t, use.authority, execution))
  {
  }

  lemma FinishKeeps(t: GoalTables, id: string, execution: string)
    requires AuthoritiesOk(t) && HoldsAuthority(t, id, execution)
    ensures AuthoritiesOk(FinishAuthority(t, id))
  {
  }

  lemma ReleaseKeeps(t: GoalTables, id: string, execution: string)
    requires AuthoritiesOk(t)
    ensures AuthoritiesOk(ReleaseAuthority(t, id, execution))
  {
  }

  /** The tables after a granted creation, one by one. */
  lemma CreationTables(t: GoalTables, plan: CreationPlan, who: Principals, now: int)
    requires BeginCreation(t, plan, who, now).1 == Ok(true)
    ensures MayReserve(t, plan.use, GoalAuthoring, who, now) && plan.execution !in t.executions
    ensures plan.reservation in t.reservations && t.reservations[plan.reservation].status == Free
    ensures SignatureKey(plan.use.counter, plan.signature) !in t.claims
    ensures var r := BeginCreation(t, plan, who, now).0;
            var use := plan.use;
            && r.authorities == ReserveAuthority(t, use.authority, plan.execution).authorities
            && r.executions == t.executions[plan.execution :=
                 Execution(GoalAuthoring, plan.candidate, plan.run, use.proposal, use.counter, plan.hash, InFlight, "")]
            && r.claims == t.claims[SignatureKey(use.counter, plan.signature) := plan.execution]
            && r.reservations == t.reservations[plan.reservation :=
                 t.reservations[plan.reservation].(status := Held, execution := Some(plan.execution), run := Some(plan.run))]
            && r.candidates == t.candidates && r.publications == t.publications && r.progress == t.progress
  {
    hide MayReserve;
  }

  lemma BeginCreationKeeps(t: GoalTables, plan: CreationPlan, who: Principals, now: int)
    requires TablesOk(t)
    ensures TablesOk(BeginCreation(t, plan, who, now).0)
  {
    var r := BeginCreation(t, plan, who, now);
    if r.1 == Ok(true) {
      CreationTables(t, plan, who, now);
      ReserveKeeps(t, plan.use, GoalAuthoring, who, now, plan.execution);
      hide BeginCreation, MayReserve, AuthorityOk, ReserveAuthority;
      assert AuthoritiesOk(r.0);
    }
  }

  lemma BeginPublicationKeeps(t: GoalTables, plan: PublicationPlan, who: Principals, now: int)
    requires TablesOk(t) && plan.candidate in t.candidates
    ensures TablesOk(BeginPublication(t, plan, who, now).0)
  {
    hide MayReserve, AuthorityOk, ReserveAuthority;
    if BeginPublication(t, plan, who, now).1 == Ok(true) {
      MayReserveKnown(t, PublicationUse(plan, t.candidates[plan.candidate]), SitePublish, who, now);
      ReserveKeeps(t, PublicationUse(plan, t.candidates[plan.candidate]), SitePublish, who, now, plan.execution);
      ReserveFrame(t, plan.use.authority, plan.execution);
    }
  }

  lemma ReserveFrame(t: GoalTables, id: string, execution: string)
    requires id in t.authorities
    ensures ReserveAuthority(t, id, execution) == t.(authorities := ReserveAuthority(t, id, execution).authorities)
  {
  }

  lemma FinishFrame(t: GoalTables, id: string)
    requires id in t.authorities
    ensures FinishAuthority(t, id) == t.(authorities := FinishAuthority(t, id).authorities)
  {
  }

  lemma CompleteCreationKeeps(t: GoalTables, execution: string, id: string, created: GoalCandidate, authority: string, reservation: string)
    requires TablesOk(t)
    ensures TablesOk(CompleteCreation(t, execution, id, created, authority, reservation).0)
  {
    hide GoalTaken, AuthorityOk, FinishAuthority;
    if CompleteCreation(t, execution, id, created, authority, reservation).1.Ok? {
      FinishKeeps(t, authority, execution);
      FinishFrame(t, authority);
    }
  }

  lemma CompletePublicationKeeps(t: GoalTables, execution: string, publication: Publication, authority: string)
    requires TablesOk(t)
    ensures TablesOk(CompletePublication(t, execution, publication, authority).0)
  {
    hide AuthorityOk, FinishAuthority;
    if CompletePublication(t, execution, publication, authority).1.Ok? {
      FinishKeeps(t, authority, execution);
      FinishFrame(t, authority);
    }
  }

  lemma AbortKeeps(t: GoalTables, execution: string, authority: string, held: Option<string>)
    requires TablesOk(t)
    ensures TablesOk(Abort(t, execution, authority, held))
  {
    hide AuthorityOk, ReleaseAuthority;
    ReleaseKeeps(t, authority, execution);
    ReleaseFrame(t, authority, execution);
  }

  lemma ReleaseFrame(t: GoalTables, id: string, execution: string)
    ensures ReleaseAuthority(t, id, execution) == t.(authorities := ReleaseAuthority(t, id, execution).authorities)
  {
  }

  lemma CleanupKeeps(t: GoalTables, candidate: string, status: CandidateStatus)
    requires TablesOk(t)
    ensures TablesOk(Decide(t, candidate, status).0) && TablesOk(BeginCleanup(t, candidate)) && TablesOk(MarkRolledBack(t, candidate))
    ensures TablesOk(MarkDeleted(t, candidate))
  {
    hide TablesOk;
    SameKeeps(t, Decide(t, candidate, status).0);
    SameKeeps(t, BeginCleanup(t, candidate));
    SameKeeps(t, MarkRolledBack(t, candidate));
    SameKeeps(t, MarkDeleted(t, candidate));
  }

  lemma SameKeeps(t: GoalTables, later: GoalTables)
    requires TablesOk(t)
    requires later.authorities == t.authorities && later.reservations == t.reservations
    requires later.claims == t.claims && later.executions == t.executions
    ensures TablesOk(later)
  {
    hide AuthorityOk, ReservationOk;
  }

  lemma FinishCleanupKeeps(t: GoalTables, candidate: string, execution: string)
    requires TablesOk(t)
    ensures TablesOk(FinishCleanup(t, candidate, execution).0)
  {
    hide AuthorityOk, ReservationOk;
  }

  lemma MarkUnknownKeeps(t: GoalTables, execution: string)
    requires TablesOk(t)
    ensures TablesOk(MarkUnknown(t, execution))
  {
    hide AuthorityOk, ReservationOk;
  }

  lemma DoKeeps(t: GoalTables, op: Op)
    requires TablesOk(t)
    ensures TablesOk(Do(t, op))
  {
    hide TablesOk, RegisterAuthority, RegisterReservation, BeginCreation, BeginPublication, CompleteCreation, CompletePublication,
         MarkUnknown, Abort, Decide, BeginCleanup, MarkRolledBack, MarkDeleted, FinishCleanup;
    match op
    case NewAuthority(id, terms) => RegisterAuthorityKeeps(t, id, terms);
    case NewReservation(id, room) => RegisterReservationKeeps(t, id, room);
    case StartCreation(plan, who, now) => BeginCreationKeeps(t, plan, who, now);
    case StartPublication(plan, who, now) => if plan.candidate in t.candidates { BeginPublicationKeeps(t, plan, who, now); }
    case EndCreation(execution, id, created, authority, reservation) =>
      CompleteCreationKeeps(t, execution, id, created, authority, reservation);
    case EndPublication(execution, publication, authority) => CompletePublicationKeeps(t, execution, publication, authority);
    case Undo(execution, authority, held) => AbortKeeps(t, execution, authority, held);
    case Doubt(execution) => MarkUnknownKeeps(t, execution);
    case Judge(candidate, status) => CleanupKeeps(t, candidate, status);
    case Clean(candidate) => CleanupKeeps(t, candidate, CandidateOpen);
    case CleanedSite(candidate) => CleanupKeeps(t, candidate, CandidateOpen);
    case CleanedGoal(candidate) => CleanupKeeps(t, candidate, CandidateOpen);
    case Cleaned(candidate, execution) => FinishCleanupKeeps(t, candidate, execution);
  }

  lemma {:induction false} RunsKeepTables(t: GoalTables, ops: seq<Op>)
    requires TablesOk(t)
    ensures TablesOk(DoAll(t, ops))
    decreases |ops|
  {
    hide Do, TablesOk;
    if ops != [] {
      DoKeeps(t, ops[0]);
      RunsKeepTables(Do(t, ops[0]), ops[1..]);
    }
  }

  // ---------- begin and abort are inverses ----------

  /** Aborting a newly begun creation restores every table: authority, reservation, claim and execution. */
  lemma AbortUndoesCreation(t: GoalTables, plan: CreationPlan, who: Principals, now: int)
    requires TablesOk(t) && BeginCreation(t, plan, who, now).1 == Ok(true)
    ensures Abort(BeginCreation(t, plan, who, now).0, plan.execution, plan.use.authority, Some(plan.reservation)) == t
  {
    CreationTables(t, plan, who, now);
    var begun := BeginCreation(t, plan, who, now).0;
    hide BeginCreation, MayReserve, AuthorityOk, ReservationOk, ReserveAuthority, ClaimsOk;
    ReleaseUndoes(t, plan.use, GoalAuthoring, who, now, plan.execution, begun);
    ClaimUndoes(t, SignatureKey(plan.use.counter, plan.signature), plan.execution);
    HeldUndoes(t, begun, plan.reservation, plan.execution, plan.run);
    hide ReleaseAuthority, ReleaseReservation, WithoutClaims;
    assert t.executions == begun.executions - {plan.execution};
  }

  lemma ClaimUndoes(t: GoalTables, claim: SignatureKey, execution: string)
    requires ClaimsOk(t) && claim !in t.claims && execution !in t.executions
    ensures WithoutClaims(t.claims[claim := execution], execution) == t.claims
  {
  }

  lemma HeldUndoes(t: GoalTables, begun: GoalTables, id: string, execution: string, run: string)
    requires ReservationsOk(t) && id in t.reservations && t.reservations[id].status == Free
    requires begun.reservations
          == t.reservations[id := t.reservations[id].(status := Held, execution := Some(execution), run := Some(run))]
    ensures ReleaseReservation(begun.(authorities := t.authorities), Some(id), execution)
         == begun.(authorities := t.authorities, reservations := t.reservations)
  {
    assert ReservationOk(t.reservations[id]);
  }

  /** Releasing what was just reserved gives the authority its former row back. */
  lemma ReleaseUndoes(
    t: GoalTables, use: AuthorityUse, action: GoalAction, who: Principals, now: int, execution: string, begun: GoalTables)
    requires AuthoritiesOk(t) && MayReserve(t, use, action, who, now)
    requires begun.authorities == ReserveAuthority(t, use.authority, execution).authorities
    ensures ReleaseAuthority(begun, use.authority, execution) == begun.(authorities := t.authorities)
  {
    assert AuthorityOk(t.authorities[use.authority]);
  }

  lemma AbortUndoesPublication(t: GoalTables, plan: PublicationPlan, who: Principals, now: int)
    requires TablesOk(t) && plan.candidate in t.candidates && BeginPublication(t, plan, who, now).1 == Ok(true)
    ensures Abort(BeginPublication(t, plan, who, now).0, plan.execution, plan.use.authority, None) == t
  {
    hide AuthorityOk, ReservationOk;
    var begun := BeginPublication(t, plan, who, now).0;
    ReleaseUndoes(t, PublicationUse(plan, t.candidates[plan.candidate]), SitePublish, who, now, plan.execution, begun);
    hide MayReserve, ReleaseAuthority;
    var back := Abort(begun, plan.execution, plan.use.authority, None);
    assert back.claims == t.claims;
    assert back.executions == t.executions;
  }

  // ---------- uses are counted once ----------

  /** Whether this transaction completes an execution under the authority. */
  predicate Completes(t: GoalTables, op: Op, authority: string) {
    match op
    case EndCreation(execution, id, created, a, reservation) =>
      a == authority && CompleteCreation(t, execution, id, created, a, reservation).1.Ok?
    case EndPublication(execution, publication, a) => a == authority && CompletePublication(t, execution, publication, a).1.Ok?
    case _ => false
  }

  function Completions(t: GoalTables, ops: seq<Op>, authority: string): nat
    decreases |ops|
  {
    if ops == [] then 0
    else Completions(Do(t, ops[0]), ops[1..], authority) + if Completes(t, ops[0], authority) then 1 else 0
  }

  function UsesOf(t: GoalTables, authority: string): int {
    if authority in t.authorities then t.authorities[authority].used else 0
  }

  /** The authority's uses went up by `n` and its terms stayed. */
  predicate Counted(t: GoalTables, later: GoalTables, authority: string, n: int) {
    && UsesOf(later, authority) == UsesOf(t, authority) + n
    && (authority in t.authorities ==>
          authority in later.authorities && later.authorities[authority].terms == t.authorities[authority].terms)
  }

  lemma SameCount(t: GoalTables, later: GoalTables, authority: string)
    requires later.authorities == t.authorities
    ensures Counted(t, later, authority, 0)
  {
  }

  lemma ReserveCounts(t: GoalTables, later: GoalTables, id: string, execution: string, authority: string)
    requires id in t.authorities && later.authorities == ReserveAuthority(t, id, execution).authorities
    ensures Counted(t, later, authority, 0)
  {
  }

  lemma BeginCreationCounts(t: GoalTables, plan: CreationPlan, who: Principals, now: int, authority: string)
    ensures Counted(t, BeginCreation(t, plan, who, now).0, authority, 0)
  {
    hide MayReserve, ReserveAuthority, Counted;
    var later := BeginCreation(t, plan, who, now).0;
    if BeginCreation(t, plan, who, now).1 == Ok(true) {
      CreationTables(t, plan, who, now);
      MayReserveKnown(t, plan.use, GoalAuthoring, who, now);
      ReserveCounts(t, later, plan.use.authority, plan.execution, authority);
    } else {
      SameCount(t, later, authority);
    }
  }

  lemma BeginPublicationCounts(t: GoalTables, plan: PublicationPlan, who: Principals, now: int, authority: string)
    requires plan.candidate in t.candidates
    ensures Counted(t, BeginPublication(t, plan, who, now).0, authority, 0)
  {
    hide MayReserve, ReserveAuthority, Counted;
    var later := BeginPublication(t, plan, who, now).0;
    if BeginPublication(t, plan, who, now).1 == Ok(true) {
      MayReserveKnown(t, PublicationUse(plan, t.candidates[plan.candidate]), SitePublish, who, now);
      ReserveCounts(t, later, plan.use.authority, plan.execution, authority);
    } else {
      SameCount(t, later, authority);
    }
  }

  lemma FinishCounts(t: GoalTables, later: GoalTables, id: string, authority: string)
    requires id in t.authorities && later.authorities == FinishAuthority(t, id).authorities
    ensures Counted(t, later, authority, if id == authority then 1 else 0)
  {
    hide SpentStatus;
  }

  lemma EndCreationCounts(t: GoalTables, op: Op, authority: string)
    requires op.EndCreation?
    ensures Counted(t, CompleteCreation(t, op.execution, op.id, op.created, op.authority, op.reservation).0, authority,
                    if Completes(t, op, authority) then 1 else 0)
  {
    hide GoalTaken, Counted, FinishAuthority;
    var r := CompleteCreation(t, op.execution, op.id, op.created, op.authority, op.reservation);
    if r.1.Ok? {
      FinishCounts(t, r.0, op.authority, authority);
    } else {
      SameCount(t, r.0, authority);
    }
  }

  lemma EndPublicationCounts(t: GoalTables, op: Op, authority: string)
    requires op.EndPublication?
    ensures Counted(t, CompletePublication(t, op.execution, op.publication, op.authority).0, authority,
                    if Completes(t, op, authority) then 1 else 0)
  {
    hide Counted, FinishAuthority;
    var r := CompletePublication(t, op.execution, op.publication, op.authority);
    if r.1.Ok? {
      FinishCounts(t, r.0, op.authority, authority);
    } else {
      SameCount(t, r.0, authority);
    }
  }

  lemma RegisterCounts(t: GoalTables, id: string, terms: AuthorityTerms, authority: string)
    ensures Counted(t, RegisterAuthority(t, id, terms).0, authority, 0)
  {
  }

  lemma AbortCounts(t: GoalTables, execution: string, id: string, held: Option<string>, authority: string)
    ensures Counted(t, Abort(t, execution, id, held), authority, 0)
  {
    hide WithoutClaims;
  }

  lemma CleanupCounts(t: GoalTables, op: Op, authority: string)
    requires op.NewReservation? || op.Doubt? || op.Judge? || op.Clean? || op.CleanedSite? || op.CleanedGoal? || op.Cleaned?
    ensures Counted(t, Do(t, op), authority, 0)
  {
    hide Counted, RegisterAuthority, BeginCreation, BeginPublication, CompleteCreation, CompletePublication, Abort, WithoutClaims;
    SameCount(t, Do(t, op), authority);
  }

  lemma DoCountsUses(t: GoalTables, op: Op, authority: string)
    ensures Counted(t, Do(t, op), authority, if Completes(t, op, authority) then 1 else 0)
  {
    hide Counted, RegisterAuthority, RegisterReservation, BeginCreation, BeginPublication, CompleteCreation, CompletePublication,
         MarkUnknown, Abort, Decide, BeginCleanup, MarkRolledBack, MarkDeleted, FinishCleanup;
    match op
    case NewAuthority(id, terms) => RegisterCounts(t, id, terms, authority);
    case StartCreation(plan, who, now) => BeginCreationCounts(t, plan, who, now, authority);
    case StartPublication(plan, who, now) =>
      Uncounted(t, authority);
      if plan.candidate in t.candidates { BeginPublicationCounts(t, plan, who, now, authority); }
    case EndCreation(execution, id, created, a, reservation) => EndCreationCounts(t, op, authority);
    case EndPublication(execution, publication, a) => EndPublicationCounts(t, op, authority);
    case Undo(execution, id, held) => AbortCounts(t, execution, id, held, authority);
    case _ => CleanupCounts(t, op, authority);
  }

  lemma Uncounted(t: GoalTables, authority: string)
    ensures Counted(t, t, authority, 0)
  {
  }

  /** `actions_used` counts exactly the completed executions; it never passes the quota, and an approval completes at most one. */
  lemma {:induction false} UsesAreCompletions(t: GoalTables, ops: seq<Op>, authority: string)
    requires TablesOk(t)
    ensures UsesOf(DoAll(t, ops), authority) == UsesOf(t, authority) + Completions(t, ops, authority)
    ensures authority in t.authorities ==>
              && UsesOf(t, authority) + Completions(t, ops, authority) <= t.authorities[authority].terms.quota
              && (t.authorities[authority].terms.kind == ByApproval ==> UsesOf(t, authority) + Completions(t, ops, authority) <= 1)
    decreases |ops|
  {
    hide Do, Completes, ReservationsOk, ClaimsOk;
    if ops != [] {
      DoCountsUses(t, ops[0], authority);
      DoKeeps(t, ops[0]);
      UsesAreCompletions(Do(t, ops[0]), ops[1..], authority);
    }
  }

  /** An execution that was applied stays applied, so no execution is completed twice. */
  lemma AppliedStays(t: GoalTables, op: Op, execution: string)
    requires execution in t.executions && t.executions[execution].status == Applied
    ensures execution in Do(t, op).executions && Do(t, op).executions[execution] == t.executions[execution]
  {
    hide WithoutClaims, GoalTaken, MayReserve;
  }

  predicate CompletesExecution(t: GoalTables, op: Op, execution: string) {
    match op
    case EndCreation(e, id, created, a, reservation) =>
      e == execution && CompleteCreation(t, e, id, created, a, reservation).1.Ok?
    case EndPublication(e, publication, a) => e == execution && CompletePublication(t, e, publication, a).1.Ok?
    case _ => false
  }

  function TimesCompleted(t: GoalTables, ops: seq<Op>, execution: string): nat
    decreases |ops|
  {
    if ops == [] then 0
    else TimesCompleted(Do(t, ops[0]), ops[1..], execution) + if CompletesExecution(t, ops[0], execution) then 1 else 0
  }

  lemma CompletingApplies(t: GoalTables, op: Op, execution: string)
    requires CompletesExecution(t, op, execution)
    ensures execution in t.executions && t.executions[execution].status != Applied
    ensures execution in Do(t, op).executions && Do(t, op).executions[execution].status == Applied
  {
    hide GoalTaken;
  }

  lemma {:induction false} CompletedAtMostOnce(t: GoalTables, ops: seq<Op>, execution: string)
    ensures TimesCompleted(t, ops, execution)
         <= if execution in t.executions && t.executions[execution].status == Applied then 0 else 1
    decreases |ops|
  {
    hide Do, CompletesExecution;
    if ops != [] {
      if CompletesExecution(t, ops[0], execution) {
        CompletingApplies(t, ops[0], execution);
      } else if execution in t.executions && t.executions[execution].status == Applied {
        AppliedStays(t, ops[0], execution);
      }
      CompletedAtMostOnce(Do(t, ops[0]), ops[1..], execution);
    }
  }
}
