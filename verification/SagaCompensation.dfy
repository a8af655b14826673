/** What compensation does: which deletes it makes, in which order, and how the saga ends. */
module SagaCompensation {
  import opened Basics
  import opened CampaignTypes
  import opened DirectAdapter
  import opened SagaStore
  import opened SagaService
  import opened SagaMachine
  import opened SagaSafety
  import opened SagaInvariant
  import opened SagaEvents
  import opened SagaWrites
  import opened SagaRuns
  import opened SagaRefinement

  // ---------- one object ----------

  function KeyFor(plan: Plan, ref: ObjectRef): OpKey {
    CompensationKey(plan.request.execution, ref)
  }

  predicate GatesOpen(env: Env, plan: Plan, ref: ObjectRef) {
    KeyFor(plan, ref) !in env.closed && KeyFor(plan, ref) !in env.blocked
  }

  /** Whether a delete of the object, tried now, reaches the adapter as a new call. */
  predicate Sends(env: Env, sys: System, plan: Plan, ref: ObjectRef) {
    DeleteAllowed(sys, plan, ref) && GatesOpen(env, plan, ref) && KeyFor(plan, ref) !in sys.adapter.results
  }

  /** Whether a delete of the object, tried now, succeeds: remembered from an earlier attempt, or made and answered. */
  predicate Undoes(env: Env, sys: System, plan: Plan, ref: ObjectRef) {
    var key := KeyFor(plan, ref);
    && DeleteAllowed(sys, plan, ref) && GatesOpen(env, plan, ref)
    && if key in sys.adapter.results then
         sys.adapter.results[key].service == ref.service && sys.adapter.results[key].verb == Delete
       else
         key !in env.faults.fail && (key in env.faults.lose ==> key in sys.adapter.timedOut)
  }

  predicate OwnsLive(sys: System, plan: Plan, ref: ObjectRef)
    requires Loaded(sys.store, plan)
  {
    Owns(Record(sys, plan).objects, ref)
  }

  /** Seen from every other object nothing changed. */
  ghost predicate OthersSame(sys: System, later: System, plan: Plan, ref: ObjectRef)
    requires Loaded(sys.store, plan) && Loaded(later.store, plan)
  {
    forall other :: other != ref ==> SameFor(sys, later, plan, other)
  }

  predicate SameFor(sys: System, later: System, plan: Plan, other: ObjectRef)
    requires Loaded(sys.store, plan) && Loaded(later.store, plan)
  {
    var key := KeyFor(plan, other);
    && OwnsLive(later, plan, other) == OwnsLive(sys, plan, other)
    && (other in later.adapter.objects <==> other in sys.adapter.objects)
    && (other in sys.adapter.objects ==> later.adapter.objects[other] == sys.adapter.objects[other])
    && (key in later.adapter.results <==> key in sys.adapter.results)
    && (key in sys.adapter.results ==> later.adapter.results[key] == sys.adapter.results[key])
    && (key in later.adapter.timedOut <==> key in sys.adapter.timedOut)
  }

  /** The adapter's part of one delete. */
  lemma InvokeDeletes(faults: Faults, a: Adapter, plan: Plan, ref: ObjectRef)
    ensures var key := KeyFor(plan, ref);
            var r := Invoke(faults, a, CompensationRequest(plan, ref));
            && r.0.calls == a.calls + (if key in a.results then [] else [CompensationRequest(plan, ref)])
            && (r.1.Answered? <==> key in a.results || (key !in faults.fail && (key in faults.lose ==> key in a.timedOut)))
            && (r.1.Answered? ==> r.1.reply == if key in a.results then a.results[key] else Reply(ref.service, Delete, [], []))
            && r.0.objects.Keys + {ref} == a.objects.Keys + {ref}
            && (forall other :: other in r.0.objects ==> other in a.objects && r.0.objects[other] == a.objects[other])
            && (forall other: OpKey :: other != key ==>
                  && (other in r.0.timedOut <==> other in a.timedOut)
                  && (other in r.0.results <==> other in a.results)
                  && (other in a.results ==> r.0.results[other] == a.results[other]))
  {
  }

  /** Deleting one object: whether it is called, whether it succeeds, what it marks, and that nothing else changes. */
  lemma OneDelete(env: Env, sys: System, plan: Plan, ref: ObjectRef)
    requires Running(sys.store, plan) && Shaped(Record(sys, plan))
    ensures var r := CompensateOne(env, sys, plan, ref);
            && r.0.adapter.calls == sys.adapter.calls + (if Sends(env, sys, plan, ref) then [CompensationRequest(plan, ref)] else [])
            && r.1 == Undoes(env, sys, plan, ref)
            && r.0.store == (if r.1 then MarkCompensated(sys.store, plan.request.execution, ref) else sys.store)
            && OthersSame(sys, r.0, plan, ref)
            && Shaped(Record(r.0, plan))
            && (r.1 ==> !OwnsLive(r.0, plan, ref))
  {
    hide Invoke, Shaped, StateAllows, Live;
    var request := CompensationRequest(plan, ref);
    var sent := Send(env, sys, request);
    if DeleteAllowed(sys, plan, ref) {
      CompensationKeepsStore(env, sys, plan, ref);
      InvokeDeletes(env.faults, sys.adapter, plan, ref);
      DeleteSends(env, sys, plan, ref);
      assert sys.(store := sys.store) == sys;
      MarkedOthers(Record(sys, plan), ref);
      hide Send, MarkRows, Owns, DeleteAllowed;
    }
  }

  lemma DeleteSends(env: Env, sys: System, plan: Plan, ref: ObjectRef)
    requires Running(sys.store, plan) && DeleteAllowed(sys, plan, ref)
    ensures var r := Send(env, sys, CompensationRequest(plan, ref));
            var answered := Invoke(env.faults, sys.adapter, CompensationRequest(plan, ref));
            if !GatesOpen(env, plan, ref) then r.0.adapter == sys.adapter && !r.1.Answered?
            else r.0.adapter == answered.0
                 && (r.1.Answered? <==> answered.1.Answered? && answered.1.reply.service == ref.service
                                        && answered.1.reply.verb == Delete)
  {
    hide Invoke, CancelClaim, Owns;
  }

  lemma MarkedOthers(record: SagaRecord, ref: ObjectRef)
    ensures !Owns(MarkRows(record.objects, ref), ref)
    ensures forall other :: other != ref ==> Owns(MarkRows(record.objects, ref), other) == Owns(record.objects, other)
    ensures Shaped(record) ==> Shaped(record.(objects := MarkRows(record.objects, ref)))
  {
    MarkedRows(record.objects, ref);
    var marked := MarkRows(record.objects, ref);
    forall other | other != ref && Owns(marked, other) ensures Owns(record.objects, other) {
      var row :| row in marked && row.created.ref == other && !row.compensated;
      var before :| before in record.objects && before.created == row.created && before.step == row.step
                    && (row.compensated <==> before.compensated || row.created.ref == ref);
    }
    if Shaped(record) {
      RegisterShape(record, marked);
    }
  }

  lemma OthersDecideSame(env: Env, sys: System, later: System, plan: Plan, ref: ObjectRef, other: ObjectRef)
    requires Loaded(sys.store, plan) && Loaded(later.store, plan) && OthersSame(sys, later, plan, ref) && other != ref
    ensures Sends(env, later, plan, other) == Sends(env, sys, plan, other)
    ensures Undoes(env, later, plan, other) == Undoes(env, sys, plan, other)
    ensures OwnsLive(later, plan, other) == OwnsLive(sys, plan, other)
  {
    assert SameFor(sys, later, plan, other);
    hide Owns;
  }

  // ---------- the whole list ----------

  predicate Distinct<T(==)>(s: seq<T>) {
    forall i, j | 0 <= i < j < |s| :: s[i] != s[j]
  }

  /** The listed objects whose delete reaches the adapter, in list order. */
  function Sent(env: Env, sys: System, plan: Plan, todo: seq<ObjectRef>): (sent: seq<ObjectRef>)
    ensures forall ref :: ref in sent <==> ref in todo && Sends(env, sys, plan, ref)
    ensures Distinct(todo) ==> Distinct(sent)
  {
    if todo == [] then []
    else if Sends(env, sys, plan, todo[0]) then
      assert todo == [todo[0]] + todo[1..];
      [todo[0]] + Sent(env, sys, plan, todo[1..])
    else
      assert todo == [todo[0]] + todo[1..];
      Sent(env, sys, plan, todo[1..])
  }

  /** How many of the listed objects are not undone. */
  function Remaining(env: Env, sys: System, plan: Plan, todo: seq<ObjectRef>): (n: nat)
    ensures n == 0 <==> forall ref :: ref in todo ==> Undoes(env, sys, plan, ref)
  {
    if todo == [] then 0
    else
      assert todo == [todo[0]] + todo[1..];
      Remaining(env, sys, plan, todo[1..]) + if Undoes(env, sys, plan, todo[0]) then 0 else 1
  }

  lemma {:induction false} DecidedSame(env: Env, sys: System, later: System, plan: Plan, ref: ObjectRef, todo: seq<ObjectRef>)
    requires Loaded(sys.store, plan) && Loaded(later.store, plan) && OthersSame(sys, later, plan, ref) && ref !in todo
    ensures Sent(env, later, plan, todo) == Sent(env, sys, plan, todo)
    ensures Remaining(env, later, plan, todo) == Remaining(env, sys, plan, todo)
  {
    hide Sends, Undoes, OthersSame;
    if todo != [] {
      assert todo == [todo[0]] + todo[1..];
      OthersDecideSame(env, sys, later, plan, ref, todo[0]);
      DecidedSame(env, sys, later, plan, ref, todo[1..]);
    }
  }

  function Deletes(plan: Plan, todo: seq<ObjectRef>): (requests: seq<DirectRequest>)
    ensures |requests| == |todo|
    ensures forall i :: 0 <= i < |todo| ==> requests[i] == CompensationRequest(plan, todo[i])
  {
    seq(|todo|, i requires 0 <= i < |todo| => CompensationRequest(plan, todo[i]))
  }

  /** After compensating a list, an object is still owned exactly when it was and is not among the undone ones. */
  ghost predicate OwnsRest(env: Env, sys: System, later: System, plan: Plan, todo: seq<ObjectRef>)
    requires Loaded(sys.store, plan) && Loaded(later.store, plan)
  {
    forall ref :: OwnsLive(later, plan, ref) <==> OwnsLive(sys, plan, ref) && !(ref in todo && Undoes(env, sys, plan, ref))
  }

  /**
   * Compensating a list of different objects: the calls are the deletes of exactly those objects whose delete is allowed
   * and new at the start, once each and in list order; the failures are exactly the objects not undone.
   */
  lemma {:induction false} DeletesExactly(env: Env, sys: System, plan: Plan, todo: seq<ObjectRef>)
    requires Running(sys.store, plan) && Shaped(Record(sys, plan)) && Distinct(todo)
    ensures var r := CompensateAll(env, sys, plan, todo);
            && r.0.adapter.calls == sys.adapter.calls + Deletes(plan, Sent(env, sys, plan, todo))
            && r.1 == Remaining(env, sys, plan, todo)
            && OwnsRest(env, sys, r.0, plan, todo)
    decreases |todo|
  {
    hide CompensateOne, Sends, Undoes, Shaped, OthersSame, Owns, Distinct, OwnsRest, Deletes;
    if todo == [] {
      NothingCompensated(env, sys, plan);
    } else {
      var ref, rest := todo[0], todo[1..];
      var one := CompensateOne(env, sys, plan, ref);
      OneDelete(env, sys, plan, ref);
      DistinctTail(todo);
      hide OwnsLive;
      DeletesExactly(env, one.0, plan, rest);
      DecidedSame(env, sys, one.0, plan, ref, rest);
      ListedFirst(plan, ref, Sent(env, sys, plan, rest));
      OwnsRestStep(env, sys, one.0, CompensateAll(env, one.0, plan, rest).0, plan, todo);
    }
  }

  lemma NothingCompensated(env: Env, sys: System, plan: Plan)
    requires Loaded(sys.store, plan)
    ensures Deletes(plan, []) == [] && OwnsRest(env, sys, sys, plan, [])
  {
    hide OwnsLive, Undoes;
  }

  lemma DistinctTail<T>(s: seq<T>)
    requires Distinct(s) && s != []
    ensures Distinct(s[1..]) && s[0] !in s[1..]
  {
  }

  lemma ListedFirst(plan: Plan, ref: ObjectRef, rest: seq<ObjectRef>)
    ensures Deletes(plan, [ref] + rest) == [CompensationRequest(plan, ref)] + Deletes(plan, rest)
  {
  }

  lemma OwnsRestStep(env: Env, sys: System, one: System, later: System, plan: Plan, todo: seq<ObjectRef>)
    requires Loaded(sys.store, plan) && Loaded(one.store, plan) && Loaded(later.store, plan)
    requires todo != [] && todo[0] !in todo[1..] && OthersSame(sys, one, plan, todo[0])
    requires OwnsRest(env, one, later, plan, todo[1..])
    requires Undoes(env, sys, plan, todo[0]) ==> !OwnsLive(one, plan, todo[0])
    requires !Undoes(env, sys, plan, todo[0]) ==> one.store == sys.store
    ensures OwnsRest(env, sys, later, plan, todo)
  {
    var first := todo[0];
    assert todo == [first] + todo[1..];
    forall ref
      ensures OwnsLive(later, plan, ref) <==> OwnsLive(sys, plan, ref) && !(ref in todo && Undoes(env, sys, plan, ref))
    {
      if ref != first {
        OthersDecideSame(env, sys, one, plan, first, ref);
      }
      hide Undoes, OthersSame;
    }
  }

  // ---------- after a definite failure ----------

  function LiveObjects(sys: System, plan: Plan): seq<ObjectRef>
    requires Loaded(sys.store, plan)
  {
    CreatedRefs(Live(Record(sys, plan).objects))
  }

  lemma {:induction false} LiveIsDistinct(objects: seq<ObjectRow>)
    requires DistinctRows(objects)
    ensures Distinct(CreatedRefs(Live(objects)))
  {
    if objects != [] {
      var rest := objects[1..];
      LiveIsDistinct(rest);
      LiveFirst(objects);
      hide Live;
      if objects[0].created.ref in CreatedRefs(Live(rest)) {
        LiveRefHasRow(rest, objects[0].created.ref);
      }
      DistinctCons(objects[0].created.ref, CreatedRefs(Live(rest)));
    }
  }

  lemma {:induction false} LiveFirst(objects: seq<ObjectRow>)
    requires objects != []
    ensures var rest := CreatedRefs(Live(objects[1..]));
            CreatedRefs(Live(objects)) == if objects[0].compensated then rest else [objects[0].created.ref] + rest
  {
    assert [] + Live(objects[1..]) == Live(objects[1..]);
  }

  lemma {:induction false} LiveRefHasRow(objects: seq<ObjectRow>, ref: ObjectRef)
    requires ref in CreatedRefs(Live(objects))
    ensures exists k :: 0 <= k < |objects| && objects[k].created.ref == ref
  {
    LiveLists(objects);
    var live := Live(objects);
    var i :| 0 <= i < |live| && CreatedRefs(live)[i] == ref;
    assert live[i] in live;
    var row :| row in objects && !row.compensated && row.created == live[i];
  }

  lemma DistinctCons<T>(first: T, rest: seq<T>)
    requires Distinct(rest)
    ensures first !in rest ==> Distinct([first] + rest)
  {
  }

  lemma LiveIsOwned(sys: System, plan: Plan, ref: ObjectRef)
    requires Loaded(sys.store, plan)
    ensures ref in LiveObjects(sys, plan) <==> OwnsLive(sys, plan, ref)
  {
    var objects := Record(sys, plan).objects;
    LiveLists(objects);
    var live := Live(objects);
    if OwnsLive(sys, plan, ref) {
      var row :| row in objects && row.created.ref == ref && !row.compensated;
      var i :| 0 <= i < |live| && live[i] == row.created;
      assert CreatedRefs(live)[i] == ref;
    }
    if ref in LiveObjects(sys, plan) {
      var i :| 0 <= i < |live| && CreatedRefs(live)[i] == ref;
      assert live[i] in live;
      var row :| row in objects && !row.compensated && row.created == live[i];
    }
  }

  lemma {:induction false} ReversedDistinct<T>(s: seq<T>)
    requires Distinct(s)
    ensures Distinct(Reversed(s))
  {
  }

  lemma LiveList(sys: System, plan: Plan)
    requires SystemOk(sys) && Running(sys.store, plan)
    ensures Shaped(Record(sys, plan)) && Distinct(LiveObjects(sys, plan)) && Distinct(Reversed(LiveObjects(sys, plan)))
    ensures forall ref :: ref in Reversed(LiveObjects(sys, plan)) <==> ref in LiveObjects(sys, plan)
  {
    hide SystemOk, Shaped, Lockstep, Accounted, Truthful, RepliesFit, Live, Reversed;
    SagaParts(sys, plan);
    LiveIsDistinct(Record(sys, plan).objects);
    ReversedDistinct(LiveObjects(sys, plan));
    ReversedSame(LiveObjects(sys, plan));
  }

  /**
   * After a definite failure the objects are deleted last created first: an object is called for exactly when its delete
   * is allowed, its gates are open and no earlier attempt is remembered, and no object is called for twice.
   */
  lemma CompensationRunsBackwards(env: Env, sys: System, plan: Plan, detail: string) returns (made: seq<ObjectRef>)
    requires SystemOk(sys) && Running(sys.store, plan)
    ensures FinishAfterFailure(env, sys, plan, detail).adapter.calls == sys.adapter.calls + Deletes(plan, made)
    ensures made == Sent(env, sys, plan, Reversed(LiveObjects(sys, plan)))
    ensures Distinct(made) && forall ref :: ref in made <==> ref in LiveObjects(sys, plan) && Sends(env, sys, plan, ref)
  {
    hide CompensateAll, SystemOk, Shaped, Sends, Live;
    LiveList(sys, plan);
    made := Sent(env, sys, plan, Reversed(LiveObjects(sys, plan)));
    DeletesExactly(env, sys, plan, Reversed(LiveObjects(sys, plan)));
  }

  /** The list order is the reverse of the creation order: of two objects called for, the later created one comes first. */
  lemma {:induction false} SentKeepsOrder(env: Env, sys: System, plan: Plan, todo: seq<ObjectRef>, i: nat, j: nat) returns (p: nat, q: nat)
    requires i < j < |Sent(env, sys, plan, todo)|
    ensures p < q < |todo| && todo[p] == Sent(env, sys, plan, todo)[i] && todo[q] == Sent(env, sys, plan, todo)[j]
  {
    hide Sends;
    var rest := Sent(env, sys, plan, todo[1..]);
    if !Sends(env, sys, plan, todo[0]) {
      p, q := SentKeepsOrder(env, sys, plan, todo[1..], i, j);
      p, q := p + 1, q + 1;
    } else if i > 0 {
      p, q := SentKeepsOrder(env, sys, plan, todo[1..], i - 1, j - 1);
      p, q := p + 1, q + 1;
    } else {
      assert rest[j - 1] in todo[1..];
      q :| 0 <= q < |todo[1..]| && todo[1..][q] == rest[j - 1];
      p, q := 0, q + 1;
    }
  }

  /**
   * How a failed saga ends: FAILED when it had created nothing; otherwise PARTIALLY_APPLIED exactly when every live object
   * is undone, and then the adapter holds nothing of it; otherwise COMPENSATION_REQUIRED, with exactly the objects that
   * were not undone still owned.
   */
  lemma CompensationOutcome(env: Env, sys: System, plan: Plan, detail: string)
    requires SystemOk(sys) && Running(sys.store, plan) && AllOwned(sys, plan.request.execution)
    ensures var later := FinishAfterFailure(env, sys, plan, detail);
            var live := LiveObjects(sys, plan);
            && SystemOk(later)
            && (live == [] ==> Record(later, plan).status == SagaStatus.Failed)
            && (live != [] ==>
                  Record(later, plan).status
                  == if forall ref <- live :: Undoes(env, sys, plan, ref) then PartiallyApplied else CompensationRequired)
            && (Record(later, plan).status != CompensationRequired ==> NoneLeft(later, plan.request.execution))
            && (forall ref :: OwnsLive(later, plan, ref) <==> ref in live && !Undoes(env, sys, plan, ref))
  {
    FailureEnds(env, sys, plan, detail);
    OutcomeRows(env, sys, plan, detail);
  }

  /** A step that failed definitely leaves nothing unowned, so the outcome above applies to every failure of a resting saga. */
  lemma FailedStepIsOwned(env: Env, sys: System, plan: Plan, step: Step)
    requires SystemOk(sys) && Running(sys.store, plan) && NothingPending(Record(sys, plan))
    requires Ordinal(step) == |Record(sys, plan).steps| && RunStep(env, sys, plan, step).1.Failure?
    ensures SystemOk(RunStep(env, sys, plan, step).0) && AllOwned(RunStep(env, sys, plan, step).0, plan.request.execution)
  {
    hide SystemOk, RunEvents, RunStep, AllOwned, Listed, NothingPending;
    var c := Config(sys, Working(plan));
    var events := StepIsARun(env, c, plan, step);
    RunInv(c, events);
  }

  lemma FailureEnds(env: Env, sys: System, plan: Plan, detail: string)
    requires SystemOk(sys) && Running(sys.store, plan) && AllOwned(sys, plan.request.execution)
    ensures var later := FinishAfterFailure(env, sys, plan, detail);
            SystemOk(later) && Truthful(later, plan.request.execution)
  {
    hide SystemOk, AllOwned, FinishAfterFailure, RunEvents, StartCompensation, Truthful, Shaped, Lockstep, RowsKnown, Accounted,
         RepliesFit;
    var c := Config(sys, StartCompensation(sys, plan, detail));
    CompensationStarts(sys, plan, detail);
    var events := CompensationIsARun(env, c, plan, detail);
    RunInv(c, events);
    SagaParts(FinishAfterFailure(env, sys, plan, detail), plan);
  }

  lemma OutcomeRows(env: Env, sys: System, plan: Plan, detail: string)
    requires SystemOk(sys) && Running(sys.store, plan)
    ensures var later := FinishAfterFailure(env, sys, plan, detail);
            var live := LiveObjects(sys, plan);
            && (live == [] ==> Record(later, plan).status == SagaStatus.Failed)
            && (live != [] ==>
                  Record(later, plan).status
                  == if forall ref <- live :: Undoes(env, sys, plan, ref) then PartiallyApplied else CompensationRequired)
            && (forall ref :: OwnsLive(later, plan, ref) <==> ref in live && !Undoes(env, sys, plan, ref))
  {
    hide CompensateAll, SystemOk, Shaped, Undoes, Live, Owns;
    LiveList(sys, plan);
    var live := LiveObjects(sys, plan);
    DeletesExactly(env, sys, plan, Reversed(live));
    forall ref ensures ref in live <==> OwnsLive(sys, plan, ref) {
      LiveIsOwned(sys, plan, ref);
    }
    hide Reversed;
    if live != [] {
      assert live[0] in live;
    }
  }

  /** Nothing stands in the way of the deletes but the objects' own states: gates open, no failure, nothing remembered. */
  predicate Undisturbed(env: Env, sys: System, plan: Plan) {
    forall key: OpKey | key in env.closed + env.blocked + env.faults.fail + env.faults.lose + sys.adapter.results.Keys ::
      !(key.CompensationKey? && key.execution == plan.request.execution)
  }

  /**
   * With open gates and no failing delete a failed saga is undone completely if and only if every live object may be
   * deleted in the state it was in at the start; otherwise exactly the others stay, and the saga asks for compensation.
   */
  lemma UndoneWhenDeletable(env: Env, sys: System, plan: Plan, detail: string)
    requires SystemOk(sys) && Running(sys.store, plan) && AllOwned(sys, plan.request.execution)
    requires Undisturbed(env, sys, plan) && LiveObjects(sys, plan) != []
    ensures var later := FinishAfterFailure(env, sys, plan, detail);
            var live := LiveObjects(sys, plan);
            && (Record(later, plan).status == PartiallyApplied && NoneLeft(later, plan.request.execution)
                <==> forall ref <- live :: DeleteAllowed(sys, plan, ref))
            && (Record(later, plan).status == CompensationRequired <==> exists ref <- live :: !DeleteAllowed(sys, plan, ref))
            && (forall ref :: OwnsLive(later, plan, ref) <==> ref in live && !DeleteAllowed(sys, plan, ref))
  {
    CompensationOutcome(env, sys, plan, detail);
    forall ref ensures Undoes(env, sys, plan, ref) == DeleteAllowed(sys, plan, ref) {
      UndisturbedUndoes(env, sys, plan, ref);
    }
    hide *;
  }

  lemma UndisturbedUndoes(env: Env, sys: System, plan: Plan, ref: ObjectRef)
    requires Undisturbed(env, sys, plan)
    ensures Undoes(env, sys, plan, ref) == DeleteAllowed(sys, plan, ref)
  {
    hide DeleteAllowed;
    var key := KeyFor(plan, ref);
    assert key !in env.closed + env.blocked + env.faults.fail + env.faults.lose + sys.adapter.results.Keys;
  }

  /** A launched campaign may not be deleted: a saga that fails after its launch always asks for compensation. */
  lemma LaunchedCampaignStays(env: Env, sys: System, plan: Plan, detail: string, campaign: ObjectRef)
    requires SystemOk(sys) && Running(sys.store, plan) && AllOwned(sys, plan.request.execution)
    requires campaign.service == Campaigns && campaign in LiveObjects(sys, plan)
    requires campaign in sys.adapter.objects && sys.adapter.objects[campaign].state == On
    ensures var later := FinishAfterFailure(env, sys, plan, detail);
            Record(later, plan).status == CompensationRequired && OwnsLive(later, plan, campaign)
  {
    hide *;
    OnIsNotUndone(env, sys, plan, campaign);
    CompensationOutcome(env, sys, plan, detail);
  }

  lemma OnIsNotUndone(env: Env, sys: System, plan: Plan, campaign: ObjectRef)
    requires campaign.service == Campaigns && campaign in sys.adapter.objects && sys.adapter.objects[campaign].state == On
    ensures !Undoes(env, sys, plan, campaign)
  {
    hide Owned;
  }
}
