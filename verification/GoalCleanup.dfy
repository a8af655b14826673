/** Cleaning up a rejected goal candidate: the fakes, the service, and the cleanup as a machine that may stop anywhere. */
module GoalCleanup {
  import opened Basics
  import opened GoalStore
  import opened GoalLedger

  datatype Goal = Goal(counter: string, id: string)

  // ---------- the outside world ----------

  class FakeSitePublishAdapter {
    var versions: map<string, string>
    var publications: map<string, Publication>
    var rollbackCalls: nat

    constructor (versions: map<string, string>)
      ensures this.versions == versions && publications == map[] && rollbackCalls == 0
    {
      this.versions, publications, rollbackCalls := versions, map[], 0;
    }

    /** Publishing needs the expected version and leaves the next one. */
    method Publish(publication: Publication) returns (published: bool)
      modifies this
      ensures published == (publication.zone in old(versions) && old(versions)[publication.zone] == publication.previous)
      ensures versions == if published then old(versions)[publication.zone := publication.published] else old(versions)
      ensures publications
           == if published then old(publications)[publication.candidate := publication] else old(publications)
      ensures rollbackCalls == old(rollbackCalls)
    {
      published := publication.zone in versions && versions[publication.zone] == publication.previous;
      if published {
        versions := versions[publication.zone := publication.published];
        publications := publications[publication.candidate := publication];
      }
    }

    method Rollback(publication: Publication, run: string) returns (done: bool)
      modifies this
      ensures done == MayRollBack(old(versions), old(publications), publication, run)
      ensures versions == if done then old(versions)[publication.zone := publication.previous] else old(versions)
      ensures publications == if done then old(publications) - {publication.candidate} else old(publications)
      ensures rollbackCalls == old(rollbackCalls) + if done then 1 else 0
    {
      done := MayRollBack(versions, publications, publication, run);
      if done {
        versions := versions[publication.zone := publication.previous];
        publications := publications - {publication.candidate};
        rollbackCalls := rollbackCalls + 1;
      }
    }
  }

  predicate MayRollBack(versions: map<string, string>, publications: map<string, Publication>, p: Publication, run: string) {
    && p.candidate in publications && publications[p.candidate] == p && p.run == run
    && p.zone in versions && versions[p.zone] == p.published
  }

  class FakeMetrikaGoalAdapter {
    var goals: set<Goal>
    var deleteCalls: nat

    constructor (goals: set<Goal>)
      ensures this.goals == goals && deleteCalls == 0
    {
      this.goals, deleteCalls := goals, 0;
    }

    method DeleteGoalIfPresent(goal: Goal) returns (deleted: bool)
      modifies this
      ensures deleted == (goal in old(goals)) && goals == old(goals) - {goal}
      ensures deleteCalls == old(deleteCalls) + if deleted then 1 else 0
    {
      deleted := goal in goals;
      if deleted {
        deleteCalls := deleteCalls + 1;
      }
      goals := goals - {goal};
    }
  }

  // ---------- the cleanup, one commit or call at a time ----------

  /** Store and outside world; both survive a crash. */
  datatype Scene = Scene(
    t: GoalTables, versions: map<string, string>, publications: map<string, Publication>, rollbacks: nat,
    goals: set<Goal>, deletions: nat)

  datatype Position =
    | Resting
    | RollingBack(goalDone: bool)
    | MarkingSite(goalDone: bool)
    | Deleting
    | MarkingGoal
    | Finishing

  datatype Stage = Stage(scene: Scene, at: Position)

  datatype Event = Advance(allowed: bool) | Crash

  function CreationKey(candidate: string): string {
    "goal-create:" + candidate
  }

  function GoalOf(t: GoalTables, candidate: string): Goal
    requires candidate in t.candidates
  {
    Goal(t.candidates[candidate].counter, t.candidates[candidate].goal)
  }

  function BeginStep(s: Scene, candidate: string, run: string): Stage {
    if candidate !in s.t.candidates || s.t.candidates[candidate].run != run
       || s.t.candidates[candidate].status != CandidateRejected then Stage(s, Resting)
    else
      var done := ProgressOf(s.t, candidate);
      Stage(s.(t := BeginCleanup(s.t, candidate)),
            if done.completed then Resting
            else if !done.rolledBack then RollingBack(done.deleted)
            else if !done.deleted then Deleting
            else Finishing)
  }

  /** The site half: roll the recorded publication back, or see that it already is. */
  function RollBackStep(s: Scene, candidate: string, run: string, allowed: bool, goalDone: bool): Stage {
    if candidate !in s.t.publications then Stage(s, MarkingSite(goalDone))
    else
      var p := s.t.publications[candidate];
      if candidate in s.publications then
        if !allowed || !MayRollBack(s.versions, s.publications, p, run) then Stage(s, Resting)
        else
          Stage(s.(versions := s.versions[p.zone := p.previous], publications := s.publications - {p.candidate},
                   rollbacks := s.rollbacks + 1),
                MarkingSite(goalDone))
      else if p.zone !in s.versions || s.versions[p.zone] != p.previous then Stage(s, Resting)
      else Stage(s, MarkingSite(goalDone))
  }

  function DeleteStep(s: Scene, candidate: string, allowed: bool): Stage
    requires candidate in s.t.candidates
  {
    var goal := GoalOf(s.t, candidate);
    if goal !in s.goals then Stage(s, MarkingGoal)
    else if !allowed then Stage(s, Resting)
    else Stage(s.(goals := s.goals - {goal}, deletions := s.deletions + 1), MarkingGoal)
  }

  function Next(c: Stage, candidate: string, run: string, event: Event): Stage {
    var s := c.scene;
    match event
    case Crash => Stage(s, Resting)
    case Advance(allowed) =>
      match c.at
      case Resting => BeginStep(s, candidate, run)
      case RollingBack(goalDone) => RollBackStep(s, candidate, run, allowed, goalDone)
      case MarkingSite(goalDone) =>
        Stage(s.(t := MarkRolledBack(s.t, candidate)), if goalDone then Finishing else Deleting)
      case Deleting => if candidate in s.t.candidates then DeleteStep(s, candidate, allowed) else Stage(s, Resting)
      case MarkingGoal => Stage(s.(t := MarkDeleted(s.t, candidate)), Finishing)
      case Finishing => Stage(s.(t := FinishCleanup(s.t, candidate, CreationKey(candidate)).0), Resting)
  }

  function Run(c: Stage, candidate: string, run: string, events: seq<Event>): Stage
    decreases |events|
  {
    if events == [] then c else Run(Next(c, candidate, run, events[0]), candidate, run, events[1..])
  }

  // ---------- what every step keeps ----------

  /** Before the first cleanup: the candidate is rejected and the recorded publication, if any, stands or is rolled back. */
  predicate Prepared(s: Scene, candidate: string, run: string) {
    && candidate in s.t.candidates && s.t.candidates[candidate].run == run
    && s.t.candidates[candidate].status == CandidateRejected
    && ProgressOf(s.t, candidate) == Progress(false, false, false)
    && (candidate in s.t.publications ==>
          var p := s.t.publications[candidate];
          && p.candidate == candidate && p.run == run && p.zone in s.versions
          && (if candidate in s.publications then s.publications[candidate] == p && s.versions[p.zone] == p.published
              else s.versions[p.zone] == p.previous))
  }

  /** How far the cleanup of `first` has come in `s`. */
  predicate Underway(first: Scene, s: Scene, candidate: string)
    requires candidate in first.t.candidates
  {
    var goal := GoalOf(first.t, candidate);
    var done := ProgressOf(s.t, candidate);
    && s.t.candidates == first.t.candidates
    && s.goals == first.goals - (if s.deletions > first.deletions then {goal} else {})
    && first.deletions <= s.deletions <= first.deletions + (if goal in first.goals then 1 else 0)
    && (done.deleted ==> goal !in s.goals)
    && (candidate in first.t.publications ==>
          var p := first.t.publications[candidate];
          var stood := candidate in first.publications;
          var rolled := s.rollbacks > first.rollbacks;
          && first.rollbacks <= s.rollbacks <= first.rollbacks + (if stood then 1 else 0)
          && s.publications == first.publications - (if rolled then {candidate} else {})
          && s.versions == (if rolled then first.versions[p.zone := p.previous] else first.versions)
          && (done.rolledBack ==> candidate !in s.publications))
    && (candidate !in first.t.publications ==>
          s.rollbacks == first.rollbacks && s.publications == first.publications && s.versions == first.versions)
    && (if done.completed then
          && done.rolledBack && done.deleted
          && candidate !in s.t.publications
          && forall k :: k in s.t.claims ==> s.t.claims[k] != CreationKey(candidate)
        else
          && (candidate in s.t.publications <==> candidate in first.t.publications)
          && (candidate in s.t.publications ==> s.t.publications[candidate] == first.t.publications[candidate]))
  }

  predicate AtOk(c: Stage, candidate: string) {
    var done := ProgressOf(c.scene.t, candidate);
    && (!c.at.Resting? ==> candidate in c.scene.t.progress && !done.completed)
    && match c.at
       case Resting => true
       case RollingBack(goalDone) => done.deleted == goalDone
       case MarkingSite(goalDone) =>
         done.deleted == goalDone && (candidate in c.scene.t.publications ==> candidate !in c.scene.publications)
       case Deleting => done.rolledBack
       case MarkingGoal => done.rolledBack && candidate in c.scene.t.candidates && GoalOf(c.scene.t, candidate) !in c.scene.goals
       case Finishing => done.rolledBack && done.deleted
  }

  predicate StageOk(first: Scene, c: Stage, candidate: string, run: string)
  {
    Prepared(first, candidate, run) && Underway(first, c.scene, candidate) && AtOk(c, candidate)
  }

  lemma BeginOk(first: Scene, c: Stage, candidate: string, run: string)
    requires StageOk(first, c, candidate, run) && c.at.Resting?
    ensures StageOk(first, BeginStep(c.scene, candidate, run), candidate, run)
  {
  }

  lemma RollBackOk(first: Scene, c: Stage, candidate: string, run: string, allowed: bool)
    requires StageOk(first, c, candidate, run) && c.at.RollingBack?
    ensures StageOk(first, RollBackStep(c.scene, candidate, run, allowed, c.at.goalDone), candidate, run)
  {
  }

  lemma DeleteOk(first: Scene, c: Stage, candidate: string, run: string, allowed: bool)
    requires StageOk(first, c, candidate, run) && c.at.Deleting?
    ensures StageOk(first, DeleteStep(c.scene, candidate, allowed), candidate, run)
  {
  }

  lemma CommitOk(first: Scene, c: Stage, candidate: string, run: string, event: Event)
    requires StageOk(first, c, candidate, run) && (c.at.MarkingSite? || c.at.MarkingGoal? || c.at.Finishing? || event.Crash?)
    ensures StageOk(first, Next(c, candidate, run, event), candidate, run)
  {
    hide BeginStep, RollBackStep, DeleteStep, CreationKey;
  }

  lemma NextOk(first: Scene, c: Stage, candidate: string, run: string, event: Event)
    requires StageOk(first, c, candidate, run)
    ensures StageOk(first, Next(c, candidate, run, event), candidate, run)
  {
    if c.at.MarkingSite? || c.at.MarkingGoal? || c.at.Finishing? || event.Crash? {
      CommitOk(first, c, candidate, run, event);
    } else if c.at.Resting? {
      BeginOk(first, c, candidate, run);
    } else if c.at.RollingBack? {
      RollBackOk(first, c, candidate, run, event.allowed);
    } else {
      DeleteOk(first, c, candidate, run, event.allowed);
    }
    hide BeginStep, RollBackStep, DeleteStep, Underway, AtOk, Prepared;
  }

  lemma {:induction false} RunOk(first: Scene, c: Stage, candidate: string, run: string, events: seq<Event>)
    requires StageOk(first, c, candidate, run)
    ensures StageOk(first, Run(c, candidate, run, events), candidate, run)
    decreases |events|
  {
    hide StageOk, Next;
    if events != [] {
      NextOk(first, c, candidate, run, events[0]);
      RunOk(first, Next(c, candidate, run, events[0]), candidate, run, events[1..]);
    }
  }

  /**
   * However often the cleanup was stopped, refused and run again: rollback and deletion happen at most once, and once it is
   * recorded complete the zone is back at its previous version, the goal is gone and its signature claim is free.
   */
  lemma {:induction false} CleanupIsRestartable(first: Scene, candidate: string, run: string, events: seq<Event>)
    requires Prepared(first, candidate, run)
    ensures var last := Run(Stage(first, Resting), candidate, run, events).scene;
            && last.rollbacks <= first.rollbacks + 1 && last.deletions <= first.deletions + 1
            && (ProgressOf(last.t, candidate).completed ==>
                  && GoalOf(first.t, candidate) !in last.goals
                  && candidate !in last.t.publications
                  && (forall k :: k in last.t.claims ==> last.t.claims[k] != CreationKey(candidate))
                  && last.deletions == first.deletions + (if GoalOf(first.t, candidate) in first.goals then 1 else 0)
                  && (candidate in first.t.publications ==>
                        var p := first.t.publications[candidate];
                        && p.zone in last.versions && last.versions[p.zone] == p.previous
                        && candidate !in last.publications
                        && last.rollbacks == first.rollbacks + (if candidate in first.publications then 1 else 0)))
  {
    hide Run;
    FirstOk(first, candidate, run);
    RunOk(first, Stage(first, Resting), candidate, run, events);
    hide BeginStep, RollBackStep, DeleteStep, CreationKey;
  }

  lemma FirstOk(first: Scene, candidate: string, run: string)
    requires Prepared(first, candidate, run)
    ensures StageOk(first, Stage(first, Resting), candidate, run)
  {
    hide CreationKey;
  }

  /** A publication the store never recorded is not rolled back: the site is clean afterwards exactly when it was recorded or absent. */
  lemma {:induction false} UnrecordedPublicationStays(first: Scene, candidate: string, run: string, events: seq<Event>)
    requires Prepared(first, candidate, run)
    requires ProgressOf(Run(Stage(first, Resting), candidate, run, events).scene.t, candidate).completed
    ensures candidate !in Run(Stage(first, Resting), candidate, run, events).scene.publications
       <==> candidate in first.t.publications || candidate !in first.publications
  {
    hide Run;
    FirstOk(first, candidate, run);
    RunOk(first, Stage(first, Resting), candidate, run, events);
    hide BeginStep, RollBackStep, DeleteStep, CreationKey;
  }

  // ---------- an undisturbed run completes ----------

  /** How many undisturbed steps are left at most. */
  function StepsLeft(at: Position): nat {
    match at
    case Resting => 6
    case RollingBack(_) => 5
    case MarkingSite(_) => 4
    case Deleting => 3
    case MarkingGoal => 2
    case Finishing => 1
  }

  lemma NextAdvances(first: Scene, c: Stage, candidate: string, run: string)
    requires StageOk(first, c, candidate, run) && !ProgressOf(c.scene.t, candidate).completed
    ensures var d := Next(c, candidate, run, Advance(true));
            ProgressOf(d.scene.t, candidate).completed || StepsLeft(d.at) < StepsLeft(c.at)
  {
    match c.at
    case Resting => BeginAdvances(first, c, candidate, run);
    case RollingBack(goalDone) => RollBackAdvances(first, c, candidate, run);
    case _ => CommitAdvances(first, c, candidate, run);
    hide StageOk, BeginStep, RollBackStep, DeleteStep, FinishCleanup, CreationKey;
  }

  lemma BeginAdvances(first: Scene, c: Stage, candidate: string, run: string)
    requires StageOk(first, c, candidate, run) && c.at.Resting? && !ProgressOf(c.scene.t, candidate).completed
    ensures !BeginStep(c.scene, candidate, run).at.Resting?
  {
  }

  lemma RollBackAdvances(first: Scene, c: Stage, candidate: string, run: string)
    requires StageOk(first, c, candidate, run) && c.at.RollingBack?
    ensures RollBackStep(c.scene, candidate, run, true, c.at.goalDone).at.MarkingSite?
  {
  }

  lemma CommitAdvances(first: Scene, c: Stage, candidate: string, run: string)
    requires StageOk(first, c, candidate, run) && (c.at.MarkingSite? || c.at.Deleting? || c.at.MarkingGoal? || c.at.Finishing?)
    ensures var d := Next(c, candidate, run, Advance(true));
            ProgressOf(d.scene.t, candidate).completed || StepsLeft(d.at) < StepsLeft(c.at)
  {
    hide CreationKey, BeginStep, RollBackStep;
  }

  /** From wherever it was stopped, at most six undisturbed steps complete the cleanup. */
  lemma {:induction false} CleanupCompletes(first: Scene, c: Stage, candidate: string, run: string) returns (events: seq<Event>)
    requires StageOk(first, c, candidate, run)
    ensures |events| <= StepsLeft(c.at)
    ensures ProgressOf(Run(c, candidate, run, events).scene.t, candidate).completed
    decreases StepsLeft(c.at)
  {
    hide Next, StageOk;
    events := [];
    if !ProgressOf(c.scene.t, candidate).completed {
      NextAdvances(first, c, candidate, run);
      NextOk(first, c, candidate, run, Advance(true));
      var d := Next(c, candidate, run, Advance(true));
      if ProgressOf(d.scene.t, candidate).completed {
        events := [Advance(true)];
        assert [Advance(true)][1..] == [];
        assert Run(d, candidate, run, []) == d;
      } else {
        var rest := CleanupCompletes(first, d, candidate, run);
        events := [Advance(true)] + rest;
        assert events[1..] == rest;
      }
    }
  }

  // ---------- a publication that was never recorded ----------

  /**
   * A process that stops between the site's answer and the record of it leaves such a publication: the candidate can then
   * be rejected, and a completed cleanup leaves the site as published.
   */
  lemma StoppedBeforeRecording(
    t: GoalTables, plan: PublicationPlan, who: Principals, now: int, p: Publication, versions: map<string, string>,
    publications: map<string, Publication>, goals: set<Goal>) returns (events: seq<Event>)
    requires plan.candidate in t.candidates && t.candidates[plan.candidate].status == CandidateOpen
    requires ProgressOf(t, plan.candidate) == Progress(false, false, false)
    requires BeginPublication(t, plan, who, now).1 == Ok(true)
    requires p.candidate == plan.candidate && p.run == t.candidates[plan.candidate].run
    requires p.zone in versions && versions[p.zone] == p.previous
    ensures var judged := Decide(BeginPublication(t, plan, who, now).0, plan.candidate, CandidateRejected);
            var first := Scene(judged.0, versions[p.zone := p.published], publications[p.candidate := p], 0, goals, 0);
            var last := Run(Stage(first, Resting), plan.candidate, p.run, events).scene;
            && judged.1.Ok? && plan.candidate !in first.t.publications
            && Prepared(first, plan.candidate, p.run)
            && ProgressOf(last.t, plan.candidate).completed
            && plan.candidate in last.publications
            && last.publications == first.publications && last.versions == first.versions
  {
    var judged := Decide(BeginPublication(t, plan, who, now).0, plan.candidate, CandidateRejected);
    var first := Scene(judged.0, versions[p.zone := p.published], publications[p.candidate := p], 0, goals, 0);
    FirstOk(first, plan.candidate, p.run);
    events := CleanupCompletes(first, Stage(first, Resting), plan.candidate, p.run);
    RunOk(first, Stage(first, Resting), plan.candidate, p.run, events);
    hide Run, Decide, BeginPublication, ProgressOf;
  }

  /** Such a moment is reached: a goal is created and its publication begun from empty tables. */
  lemma {:induction false} PublicationIsBegun() returns (ops: seq<Op>, plan: PublicationPlan, who: Principals)
    ensures var t := DoAll(EMPTY_TABLES, ops);
            && plan.candidate in t.candidates && t.candidates[plan.candidate].status == CandidateOpen
            && ProgressOf(t, plan.candidate) == Progress(false, false, false)
            && BeginPublication(t, plan, who, 0).1 == Ok(true)
  {
    hide DoAll, BeginPublication, ProgressOf, BeginCreation, CompleteCreation;
    who := Principals(("approver", "a"), ("issuer", "i"));
    var terms := AuthorityTerms(ByApproval, "approver", "a", "p", "1", "zone", {GoalAuthoring, SitePublish}, "policy", "b", 1, 9);
    var use := AuthorityUse("first", "p", "1", "zone", "policy", "b");
    var creation := CreationPlan("create", "run", "c", use, "room", "1", "profile", "s", "h");
    var created := GoalCandidate("run", "p", "1", "7", "event", "location", CandidateOpen);
    var room := ReservationTerms("1", "METRIKA_GOAL", "p", "profile", 9);
    plan := PublicationPlan("publish", "c", use.(authority := "second"), "h");
    ops := [NewAuthority("first", terms), NewAuthority("second", terms), NewReservation("room", room),
            StartCreation(creation, who, 0), EndCreation("create", "c", created, "first", "room")];
    DoFive(EMPTY_TABLES, ops[0], ops[1], ops[2], ops[3], ops[4]);
    assert ops == [ops[0], ops[1], ops[2], ops[3], ops[4]];
    var c := Do(Do(Do(EMPTY_TABLES, ops[0]), ops[1]), ops[2]);
    Registered(c, terms, room);
    var d := Do(c, ops[3]);
    CreationBegins(c, d, creation, who, terms, room);
    var e := Do(d, ops[4]);
    CreationEnds(d, e, created);
    hide Do;
    PublicationBegins(e, plan, who, terms, created);
  }

  lemma Registered(t: GoalTables, terms: AuthorityTerms, room: ReservationTerms)
    requires terms.policy != "" && terms.binding != "" && terms.quota == 1 && terms.kind == ByApproval
    requires t == Do(Do(Do(EMPTY_TABLES, NewAuthority("first", terms)), NewAuthority("second", terms)), NewReservation("room", room))
    ensures t == EMPTY_TABLES.(
      authorities := map["first" := Authority(terms, Available, 0, None), "second" := Authority(terms, Available, 0, None)],
      reservations := map["room" := Reservation(room, Free, None, None)])
  {
  }

  lemma PublicationBegins(t: GoalTables, plan: PublicationPlan, who: Principals, terms: AuthorityTerms, created: GoalCandidate)
    requires terms == AuthorityTerms(ByApproval, "approver", "a", "p", "1", "zone", {GoalAuthoring, SitePublish}, "policy", "b", 1, 9)
    requires who == Principals(("approver", "a"), ("issuer", "i"))
    requires plan == PublicationPlan("publish", "c", AuthorityUse("second", "p", "1", "zone", "policy", "b"), "h")
    requires t.candidates == map["c" := created] && created.status == CandidateOpen && created.proposal == "p" && created.counter == "1"
    requires t.publications == map[] && t.progress == map[]
    requires "publish" !in t.executions && "second" in t.authorities
    requires t.authorities["second"] == Authority(terms, Available, 0, None)
    ensures plan.candidate in t.candidates && t.candidates[plan.candidate].status == CandidateOpen
    ensures ProgressOf(t, plan.candidate) == Progress(false, false, false)
    ensures BeginPublication(t, plan, who, 0).1 == Ok(true)
  {
  }

  lemma CreationBegins(
    t: GoalTables, later: GoalTables, plan: CreationPlan, who: Principals, terms: AuthorityTerms, room: ReservationTerms)
    requires t == EMPTY_TABLES.(
      authorities := map["first" := Authority(terms, Available, 0, None), "second" := Authority(terms, Available, 0, None)],
      reservations := map["room" := Reservation(room, Free, None, None)])
    requires terms == AuthorityTerms(ByApproval, "approver", "a", "p", "1", "zone", {GoalAuthoring, SitePublish}, "policy", "b", 1, 9)
    requires room == ReservationTerms("1", "METRIKA_GOAL", "p", "profile", 9)
    requires who == Principals(("approver", "a"), ("issuer", "i"))
    requires plan == CreationPlan("create", "run", "c", AuthorityUse("first", "p", "1", "zone", "policy", "b"), "room",
                                  "1", "profile", "s", "h")
    requires later == BeginCreation(t, plan, who, 0).0
    ensures later.executions == map["create" := Execution(GoalAuthoring, "c", "run", "p", "1", "h", InFlight, "")]
    ensures later.authorities == t.authorities["first" := Authority(terms, Reserved, 0, Some("create"))]
    ensures later.reservations == map["room" := Reservation(room, Held, Some("create"), Some("run"))]
    ensures later.candidates == map[] && later.publications == map[] && later.progress == map[]
  {
  }

  lemma CreationEnds(t: GoalTables, later: GoalTables, created: GoalCandidate)
    requires t.candidates == map[] && "create" in t.executions && "first" in t.authorities && "room" in t.reservations
    requires t.executions["create"].operation == GoalAuthoring && t.executions["create"].status == InFlight
    requires t.executions["create"].candidate == "c"
    requires t.authorities["first"].status == Reserved && t.authorities["first"].holder == Some("create")
    requires t.reservations["room"].status == Held && t.reservations["room"].execution == Some("create")
    requires later == CompleteCreation(t, "create", "c", created, "first", "room").0
    ensures later.candidates == map["c" := created] && later.publications == t.publications && later.progress == t.progress
    ensures later.executions.Keys == t.executions.Keys
    ensures forall id :: id in t.authorities && id != "first" ==> id in later.authorities && later.authorities[id] == t.authorities[id]
  {
  }

  lemma {:induction false} DoFive(t: GoalTables, a: Op, b: Op, c: Op, d: Op, e: Op)
    ensures DoAll(t, [a, b, c, d, e]) == Do(Do(Do(Do(Do(t, a), b), c), d), e)
  {
    hide Do;
    assert [a, b, c, d, e][1..] == [b, c, d, e] && [b, c, d, e][1..] == [c, d, e] && [c, d, e][1..] == [d, e]
           && [d, e][1..] == [e] && [e][1..] == [];
    assert DoAll(t, [a, b, c, d, e]) == DoAll(Do(t, a), [b, c, d, e]);
    assert DoAll(Do(t, a), [b, c, d, e]) == DoAll(Do(Do(t, a), b), [c, d, e]);
    assert DoAll(Do(Do(t, a), b), [c, d, e]) == DoAll(Do(Do(Do(t, a), b), c), [d, e]);
    assert DoAll(Do(Do(Do(t, a), b), c), [d, e]) == DoAll(Do(Do(Do(Do(t, a), b), c), d), [e]);
  }

  // ---------- the service ----------

  /** Gate answers for the two guarded calls of one cleanup. */
  datatype Gates = Gates(site: bool, goal: bool)

  /** The steps of one undisturbed call, each taken only when the cleanup stands at it. */
  function FromMarking(c: Stage, candidate: string, run: string, gates: Gates): Stage {
    var marked := if c.at.MarkingSite? then Next(c, candidate, run, Advance(true)) else c;
    var deleted := if marked.at.Deleting? then Next(marked, candidate, run, Advance(gates.goal)) else marked;
    var noted := if deleted.at.MarkingGoal? then Next(deleted, candidate, run, Advance(true)) else deleted;
    if noted.at.Finishing? then Next(noted, candidate, run, Advance(true)) else noted
  }

  function CleanupCall(s: Scene, candidate: string, run: string, gates: Gates): Stage {
    var begun := BeginStep(s, candidate, run);
    FromMarking(if begun.at.RollingBack? then Next(begun, candidate, run, Advance(gates.site)) else begun, candidate, run, gates)
  }

  lemma {:induction false} RunThen(c: Stage, candidate: string, run: string, events: seq<Event>, event: Event)
    ensures Run(c, candidate, run, events + [event]) == Next(Run(c, candidate, run, events), candidate, run, event)
    decreases |events|
  {
    hide Next;
    if events == [] {
      assert [event][1..] == [];
    } else {
      assert (events + [event])[1..] == events[1..] + [event];
      RunThen(Next(c, candidate, run, events[0]), candidate, run, events[1..], event);
    }
  }

  /** One call of the service is a run of the machine. */
  lemma CallIsARun(s: Scene, candidate: string, run: string, gates: Gates) returns (events: seq<Event>)
    ensures Run(Stage(s, Resting), candidate, run, events) == CleanupCall(s, candidate, run, gates)
  {
    hide Run;
    var c := Stage(s, Resting);
    RunThen(c, candidate, run, [], Advance(true));
    RunNothing(c, candidate, run);
    events := [] + [Advance(true)];
    var d := BeginStep(s, candidate, run);
    assert Run(c, candidate, run, events) == d;
    hide Next, BeginStep;
    if d.at.RollingBack? {
      RunThen(c, candidate, run, events, Advance(gates.site));
      events := events + [Advance(gates.site)];
      d := Next(d, candidate, run, Advance(gates.site));
    }
    if d.at.MarkingSite? {
      RunThen(c, candidate, run, events, Advance(true));
      events := events + [Advance(true)];
      d := Next(d, candidate, run, Advance(true));
    }
    if d.at.Deleting? {
      RunThen(c, candidate, run, events, Advance(gates.goal));
      events := events + [Advance(gates.goal)];
      d := Next(d, candidate, run, Advance(gates.goal));
    }
    if d.at.MarkingGoal? {
      RunThen(c, candidate, run, events, Advance(true));
      events := events + [Advance(true)];
      d := Next(d, candidate, run, Advance(true));
    }
    if d.at.Finishing? {
      RunThen(c, candidate, run, events, Advance(true));
      events := events + [Advance(true)];
    }
  }

  lemma {:induction false} RunNothing(c: Stage, candidate: string, run: string)
    ensures Run(c, candidate, run, []) == c
  {
    hide Next;
  }

  class GoalLifecycleService {
    const store: GoalLifecycleStore
    const site: FakeSitePublishAdapter
    const metrika: FakeMetrikaGoalAdapter

    constructor (store: GoalLifecycleStore, site: FakeSitePublishAdapter, metrika: FakeMetrikaGoalAdapter)
      ensures this.store == store && this.site == site && this.metrika == metrika
    {
      this.store, this.site, this.metrika := store, site, metrika;
    }

    function View(): Scene
      reads store, site, metrika
    {
      Scene(store.View(), site.versions, site.publications, site.rollbackCalls, metrika.goals, metrika.deleteCalls)
    }

    /** Rolls the publication back, deletes the goal and closes the cleanup, skipping what an earlier call had done. */
    method CleanupRejectedCandidate(candidate: string, run: string, gates: Gates)
      modifies store, site, metrika
      ensures View() == CleanupCall(old(View()), candidate, run, gates).scene
    {
      hide MarkRolledBack, MarkDeleted, FinishCleanup, CreationKey, DeleteStep, RollBackStep;
      if candidate !in store.candidates || store.candidates[candidate].run != run
         || store.candidates[candidate].status != CandidateRejected {
        return;
      }
      var done := store.StartCleanup(candidate);
      if done.completed {
        return;
      }
      if !done.rolledBack {
        SameStanding(View(), candidate, run, gates.site, done.deleted);
        var standing := RollBackSite(candidate, run, gates.site);
        if !standing {
          return;
        }
        store.MarkPublicationRolledBack(candidate);
      }
      DeleteGoal(candidate, run, done.deleted, gates);
    }

    method DeleteGoal(candidate: string, run: string, goalDone: bool, gates: Gates)
      modifies store, metrika
      ensures View() == FromMarking(Stage(old(View()), if goalDone then Finishing else Deleting), candidate, run, gates).scene
    {
      hide MarkRolledBack, MarkDeleted, FinishCleanup, CreationKey;
      if !goalDone {
        if candidate !in store.candidates {
          return;
        }
        var goal := Goal(store.candidates[candidate].counter, store.candidates[candidate].goal);
        if goal in metrika.goals {
          if !gates.goal {
            return;
          }
          var deleted := metrika.DeleteGoalIfPresent(goal);
        }
        store.MarkGoalDeleted(candidate);
      }
      var closed := store.CloseCleanup(candidate, CreationKey(candidate));
    }

    /** The recorded publication is rolled back, or found rolled back already; false when it cannot be. */
    method RollBackSite(candidate: string, run: string, allowed: bool) returns (clean: bool)
      modifies site
      ensures var next := RollBackStep(old(View()), candidate, run, allowed, false);
              View() == next.scene && clean == next.at.MarkingSite?
    {
      if candidate !in store.publications {
        return true;
      }
      var p := store.publications[candidate];
      if candidate in site.publications {
        if !allowed {
          return false;
        }
        clean := site.Rollback(p, run);
      } else {
        clean := p.zone in site.versions && site.versions[p.zone] == p.previous;
      }
    }
  }

  /** What the site half does does not depend on whether the goal half was done. */
  lemma SameStanding(s: Scene, candidate: string, run: string, allowed: bool, goalDone: bool)
    ensures var one, two := RollBackStep(s, candidate, run, allowed, false), RollBackStep(s, candidate, run, allowed, goalDone);
            && one.scene == two.scene && (one.at.MarkingSite? <==> two.at.MarkingSite?)
            && (two.at.MarkingSite? || two.at.Resting?) && (two.at.MarkingSite? ==> two.at.goalDone == goalDone)
  {
  }

  // ---------- exactly when each step acts ----------

  /** A publication is rolled back only as the one that stands, of this run, over the version it published. */
  lemma RollsBackWhen(versions: map<string, string>, publications: map<string, Publication>, p: Publication, run: string)
    ensures MayRollBack(versions, publications, p, run)
       <==> && p.run == run && p.candidate in publications && publications[p.candidate] == p
            && p.zone in versions && versions[p.zone] == p.published
  {
  }

  /** Cleanup starts or goes on only for a rejected candidate of this run, at the first half that is not done. */
  lemma CleanupGoesOnWhen(s: Scene, candidate: string, run: string)
    ensures var mine := candidate in s.t.candidates && s.t.candidates[candidate].run == run
                        && s.t.candidates[candidate].status == CandidateRejected;
            var done := if candidate in s.t.progress then s.t.progress[candidate] else Progress(false, false, false);
            var r := BeginStep(s, candidate, run);
            && (!mine ==> r == Stage(s, Resting))
            && (mine ==>
                  && r.scene == s.(t := s.t.(progress := s.t.progress[candidate := done]))
                  && (done.completed ==> r.at == Resting)
                  && (!done.completed && !done.rolledBack ==> r.at == RollingBack(done.deleted))
                  && (!done.completed && done.rolledBack && !done.deleted ==> r.at == Deleting)
                  && (!done.completed && done.rolledBack && done.deleted ==> r.at == Finishing))
  {
  }

  /**
   * The site is written only behind an open gate, for the recorded publication that stands as it was published; a site that is
   * neither as published nor as before stops the cleanup.
   */
  lemma SiteRolledBackWhen(s: Scene, candidate: string, run: string, allowed: bool, goalDone: bool)
    requires candidate in s.t.publications && s.t.publications[candidate].candidate == candidate
    ensures var p, r := s.t.publications[candidate], RollBackStep(s, candidate, run, allowed, goalDone);
            var standsHere := candidate in s.publications;
            && (r.scene != s ==>
                  allowed && standsHere && MayRollBack(s.versions, s.publications, p, run) && r.scene.rollbacks == s.rollbacks + 1
                  && r.scene.versions == s.versions[p.zone := p.previous] && r.scene.publications == s.publications - {candidate})
            && (r.at == MarkingSite(goalDone) <==>
                  if standsHere then allowed && MayRollBack(s.versions, s.publications, p, run)
                  else p.zone in s.versions && s.versions[p.zone] == p.previous)
            && (r.at != MarkingSite(goalDone) ==> r == Stage(s, Resting))
  {
    hide MayRollBack;
  }

  /** The goal is deleted only behind an open gate, and a goal that is gone needs no call. */
  lemma GoalDeletedWhen(s: Scene, candidate: string, allowed: bool)
    requires candidate in s.t.candidates
    ensures var r, goal := DeleteStep(s, candidate, allowed), GoalOf(s.t, candidate);
            && (r.at == MarkingGoal <==> goal !in s.goals || allowed)
            && (goal in s.goals && allowed ==> r.scene == s.(goals := s.goals - {goal}, deletions := s.deletions + 1))
            && (goal !in s.goals || !allowed ==> r.scene == s)
            && (r.at != MarkingGoal ==> r.at == Resting)
  {
  }
}
