/** The remaining events keep the invariant, and what therefore holds after every run with crashes anywhere. */
module SagaRuns {
  import opened Basics
  import opened CampaignTypes
  import opened DirectAdapter
  import opened SagaStore
  import opened SagaService
  import opened SagaMachine
  import opened SagaSafety
  import opened SagaInvariant
  import opened SagaEvents
  import opened SagaWrites

  // ---------- the world around the saga ----------

  lemma DriftKeeps(sys: System, objects: map<ObjectRef, DirectObject>)
    requires SystemOk(sys) && objects.Keys == sys.adapter.objects.Keys
    ensures SystemOk(sys.(adapter := sys.adapter.(objects := objects)))
  {
    hide SagaOk, Keyed, GrantsBound, Times, SameGrants;
    var later := sys.(adapter := sys.adapter.(objects := objects));
    forall k | k in sys.store.sagas ensures SagaOk(later, k) {
      assert SameGrants(sys.store, later.store, k) by { SameGrantsHere(sys.store, k); }
      SagaFrame(sys, later, k);
    }
  }

  lemma SameGrantsHere(st: Store, k: string)
    requires k in st.sagas
    ensures SameGrants(st, st, k)
  {
  }

  lemma DriftInv(c: Config, objects: map<ObjectRef, DirectObject>)
    requires Inv(c) && objects.Keys == c.sys.adapter.objects.Keys
    ensures Inv(c.(sys := c.sys.(adapter := c.sys.adapter.(objects := objects))))
  {
    hide SystemOk, Owns, Times, NothingPending, RequestFits, HasObjectsOf, AuthorityUsed;
    DriftKeeps(c.sys, objects);
    var sys := c.sys.(adapter := c.sys.adapter.(objects := objects));
    assert forall k, s, r :: Stands(sys, k, s, r) <==> Stands(c.sys, k, s, r);
  }

  lemma NewGrantsKeep(sys: System, st: Store)
    requires SystemOk(sys) && st == sys.store.(reservations := st.reservations, approvals := st.approvals)
    requires forall id :: id in sys.store.reservations ==> id in st.reservations && st.reservations[id] == sys.store.reservations[id]
    requires forall id :: id in sys.store.approvals ==> id in st.approvals && st.approvals[id] == sys.store.approvals[id]
    requires forall id :: id in st.reservations && id !in sys.store.reservations ==>
               st.reservations[id].status == Available && st.reservations[id].holder.None?
    requires forall id :: id in st.approvals && id !in sys.store.approvals ==>
               st.approvals[id].status == Available && st.approvals[id].holder.None?
    ensures SystemOk(sys.(store := st))
  {
    hide SagaOk, SentOnce, Numbered, Keyed;
    GrantsKeep(sys, st);
  }

  lemma AddReservationInv(c: Config, id: string, reservation: Reservation)
    requires Inv(c)
    ensures Inv(Next(c, AddReservation(id, reservation)))
  {
    hide SystemOk, AllOwned, Times, NothingPending, RequestFits, HasObjectsOf, Listed, RegisterReservation;
    var st := RegisterReservation(c.sys.store, id, reservation).0;
    assert st == c.sys.store || (id !in c.sys.store.reservations && reservation.status == Available
             && st == c.sys.store.(reservations := c.sys.store.reservations[id := reservation.(holder := None)])) by {
      RegisterReservationAdds(c.sys.store, id, reservation);
    }
    if st != c.sys.store {
      NewGrantsKeep(c.sys, st);
      PositionFrame(c, st);
    }
  }

  lemma RegisterReservationAdds(st: Store, id: string, reservation: Reservation)
    ensures var r := RegisterReservation(st, id, reservation).0;
            r == st || (id !in st.reservations && reservation.status == Available
                        && r == st.(reservations := st.reservations[id := reservation.(holder := None)]))
  {
  }

  lemma AddApprovalInv(c: Config, id: string, approval: Approval)
    requires Inv(c)
    ensures Inv(Next(c, AddApproval(id, approval)))
  {
    hide SystemOk, AllOwned, Times, NothingPending, RequestFits, HasObjectsOf, Listed;
    var st := RegisterApproval(c.sys.store, id, approval).0;
    if st != c.sys.store {
      NewGrantsKeep(c.sys, st);
      PositionFrame(c, st);
    }
  }

  /** New grants do not disturb the service's position. */
  lemma PositionFrame(c: Config, st: Store)
    requires PositionOk(c) && st == c.sys.store.(reservations := st.reservations, approvals := st.approvals)
    requires forall id :: id in c.sys.store.reservations ==> id in st.reservations && st.reservations[id] == c.sys.store.reservations[id]
    ensures PositionOk(c.(sys := c.sys.(store := st)))
  {
    hide Owns, Times, NothingPending, RequestFits, HasObjectsOf;
    var sys := c.sys.(store := st);
    assert forall k, s, r :: Stands(sys, k, s, r) <==> Stands(c.sys, k, s, r);
  }

  // ---------- a new saga ----------

  predicate Starts(st: Store, plan: Plan) {
    var request := plan.request;
    && request.execution !in st.sagas
    && request.run !in st.runs
    && request.reservation in st.reservations && st.reservations[request.reservation].status == Available
    && request.approval in st.approvals && st.approvals[request.approval].status == Available
  }

  function Started(st: Store, plan: Plan): Store
    requires Starts(st, plan)
  {
    var request := plan.request;
    st.(reservations := st.reservations[request.reservation :=
          st.reservations[request.reservation].(status := Reserved, holder := Some(request.execution))],
        approvals := st.approvals[request.approval :=
          st.approvals[request.approval].(status := Reserved, holder := Some(request.execution))],
        sagas := st.sagas[request.execution := SagaRecord(plan, InFlight, "", [], [], [])],
        runs := st.runs[request.run := request.execution])
  }

  lemma StartOrLoadStarts(st: Store, plan: Plan, now: int, approver: Principal)
    requires StartOrLoad(st, plan, now, approver).1.Ok?
    ensures var r := StartOrLoad(st, plan, now, approver);
            (r.0 == st && plan.request.execution in st.sagas && st.sagas[plan.request.execution].plan == plan)
            || (Starts(st, plan) && r.0 == Started(st, plan))
  {
  }

  lemma StartedGrants(st: Store, plan: Plan)
    requires Starts(st, plan) && GrantsBound(st)
    ensures GrantsBound(Started(st, plan))
  {
  }

  lemma StartedKeyed(st: Store, plan: Plan)
    requires Starts(st, plan) && Keyed(st) && ValidDraft(plan.request.draft)
    ensures Keyed(Started(st, plan))
  {
    forall k | k in Started(st, plan).sagas ensures KeyedAt(Started(st, plan), k) {
      if k != plan.request.execution {
        assert KeyedAt(st, k);
      }
    }
  }

  lemma StartedSent(sys: System, plan: Plan)
    requires SentOnce(sys) && Numbered(sys) && Starts(sys.store, plan)
    ensures SentOnce(sys.(store := Started(sys.store, plan))) && Numbered(sys.(store := Started(sys.store, plan)))
  {
    hide Times;
    assert forall key: OpKey :: Dispatched(sys.store, key) ==> Dispatched(Started(sys.store, plan), key);
  }

  /** Nothing was ever sent for an execution key the store does not know. */
  lemma NewSagaFits(sys: System, plan: Plan)
    requires SentOnce(sys) && Starts(sys.store, plan)
    ensures SagaOk(sys.(store := Started(sys.store, plan)), plan.request.execution)
  {
    hide Times, Starts, Owns, Unregistered;
    var k := plan.request.execution;
    forall s ensures StepKey(k, s) !in sys.adapter.results {
      NothingSent(sys, plan, s);
    }
    NewSagaLockstep(sys, plan);
    hide Lockstep;
    assert Started(sys.store, plan).sagas[k] == SagaRecord(plan, InFlight, "", [], [], []);
    hide Started;
  }

  lemma NothingSent(sys: System, plan: Plan, s: Step)
    requires SentOnce(sys) && Starts(sys.store, plan)
    ensures StepKey(plan.request.execution, s) !in sys.adapter.results
  {
    assert !Dispatched(sys.store, StepKey(plan.request.execution, s));
  }

  lemma NewSagaLockstep(sys: System, plan: Plan)
    requires Starts(sys.store, plan)
    ensures Lockstep(Started(sys.store, plan), plan.request.execution)
  {
  }

  lemma StartKeepsOther(sys: System, plan: Plan, k: string)
    requires SystemOk(sys) && Starts(sys.store, plan) && k in sys.store.sagas
    ensures SagaOk(sys.(store := Started(sys.store, plan)), k)
  {
    hide SentOnce, Numbered, Keyed, Shaped, RowsKnown, Accounted, Truthful, RepliesFit;
    assert SagaOk(sys, k);
    assert SameGrants(sys.store, Started(sys.store, plan), k);
    SagaFrame(sys, sys.(store := Started(sys.store, plan)), k);
  }

  lemma StartKeeps(sys: System, plan: Plan)
    requires SystemOk(sys) && Starts(sys.store, plan) && ValidDraft(plan.request.draft)
    ensures SystemOk(sys.(store := Started(sys.store, plan)))
  {
    hide *;
    SystemParts(sys);
    StartedGrants(sys.store, plan);
    StartedKeyed(sys.store, plan);
    StartedSent(sys, plan);
    var later := sys.(store := Started(sys.store, plan));
    forall k | k in later.store.sagas ensures SagaOk(later, k) {
      if k == plan.request.execution {
        NewSagaFits(sys, plan);
      } else {
        StartedSagas(sys.store, plan);
        StartKeepsOther(sys, plan, k);
      }
    }
    SystemFrom(later);
  }

  lemma StartedSagas(st: Store, plan: Plan)
    requires Starts(st, plan)
    ensures Started(st, plan).sagas.Keys == st.sagas.Keys + {plan.request.execution}
  {
  }

  lemma BeginInv(c: Config, plan: Plan, now: int, approver: Principal)
    requires Inv(c) && c.at.Idle?
    ensures Inv(DoBegin(c, plan, now, approver))
  {
    hide SystemOk, StartOrLoad, Starts, Started, FirstPending, Shaped, Lockstep, RowsKnown, Accounted, Truthful, RepliesFit,
         Loaded, GrantsBound, SentOnce, Numbered;
    var started := StartOrLoad(c.sys.store, plan, now, approver);
    LoadedInFlight(c.sys.store, plan, now, approver);
    if ValidDraft(plan.request.draft) && started.1 == Ok(InFlight) {
      StartOrLoadStarts(c.sys.store, plan, now, approver);
      if started.0 != c.sys.store {
        StartKeeps(c.sys, plan);
      }
      SystemParts(c.sys.(store := started.0));
      assert KeyedAt(started.0, plan.request.execution);
      SagaParts(c.sys.(store := started.0), plan);
      PendingFirst(started.0.sagas[plan.request.execution]);
    }
  }

  lemma LoadedInFlight(st: Store, plan: Plan, now: int, approver: Principal)
    ensures var r := StartOrLoad(st, plan, now, approver);
            r.1.Ok? ==> plan.request.execution in r.0.sagas && r.0.sagas[plan.request.execution].plan == plan
                        && r.0.sagas[plan.request.execution].status == r.1.value
  {
  }

  // ---------- reads ----------

  /** Calls that are neither write steps nor compensations. */
  lemma ReadKeeps(env: Env, sys: System, run: string, service: Service, ids: seq<ObjectRef>)
    requires SystemOk(sys)
    ensures SystemOk(Read(env, sys, run, service, ids).0)
    ensures Read(env, sys, run, service, ids).0.store == sys.store
  {
    hide SystemOk, Extends, Invoke;
    var request := ReadRequest(run, service, ids);
    InvokeExtends(env.faults, sys.adapter, request);
    var b := Invoke(env.faults, sys.adapter, request).0;
    CallKeeps(sys, b, request.key);
    assert sys.(adapter := sys.adapter) == sys;
  }

  lemma ReadOnlyInv(c: Config, faults: Faults, service: Service)
    requires Inv(c) && c.at.Working?
    ensures Inv(DoReadOnly(c, faults, service))
  {
    hide SystemOk, Read, NothingPending, Live, OfService;
    ReadKeeps(Env(faults, {}, {}), c.sys, c.at.plan.request.run, service, LiveRefs(c.sys, c.at.plan, service));
  }

  /** A step that only reads: the store changes only when the step closes. */
  lemma ReadStepKeeps(env: Env, sys: System, plan: Plan, step: Step)
    requires SystemOk(sys) && Running(sys.store, plan) && NothingPending(Record(sys, plan)) && !IsWrite(step)
    requires Ordinal(step) == |Record(sys, plan).steps|
    ensures var r := RunStep(env, sys, plan, step);
            SystemOk(r.0) && NothingPending(Record(r.0, plan))
  {
    hide SystemOk, Read, NothingPending, Live, OfService, CloseStep, AuthorityUsed, StepOwned, BeginStep, ReadbackMatches, AllIn,
         StatesOf, SeenRefs;
    var run := plan.request.run;
    UsedByThen(sys, plan);
    if step == ModerationReadback {
      var one := Read(env, sys, run, Ads, LiveRefs(sys, plan, Ads));
      ReadKeeps(env, sys, run, Ads, LiveRefs(sys, plan, Ads));
      if one.1.Answered? {
        ReadCloses(one.0, plan, step, States(StatesOf(one.1.reply.readback)));
      }
    } else {
      FullReadKeeps(env, sys, plan);
    }
  }

  lemma ReadCloses(sys: System, plan: Plan, step: Step, response: Response)
    requires SystemOk(sys) && Running(sys.store, plan) && NothingPending(Record(sys, plan)) && !IsWrite(step)
    requires Ordinal(step) == |Record(sys, plan).steps|
    ensures var r := CloseStep(sys, plan, step, response);
            SystemOk(r.0) && NothingPending(Record(r.0, plan))
  {
    hide SystemOk, NothingPending, AuthorityUsed, Shaped, Lockstep, RowsKnown, Accounted, Truthful, RepliesFit;
    SagaParts(sys, plan);
    UsedByThen(sys, plan);
    NeverAnswered(sys, plan, step);
    CloseKeeps(sys, plan, step, response);
  }

  /** Read steps have no operation key of their own, so nothing stands under one. */
  lemma NeverAnswered(sys: System, plan: Plan, step: Step)
    requires SystemOk(sys) && Loaded(sys.store, plan) && !IsWrite(step)
    ensures StepOwned(sys, plan, step)
  {
    hide SystemOk, Times, Lockstep, RowsKnown, Accounted, Truthful, RepliesFit, Keyed, GrantsBound, Numbered;
    SystemParts(sys);
    SagaParts(sys, plan);
    var key := StepKey(plan.request.execution, step);
    if key in sys.adapter.results {
      assert Dispatched(sys.store, key);
      OnlyWritesDispatched(Record(sys, plan), step);
    }
  }

  lemma OnlyWritesDispatched(record: SagaRecord, step: Step)
    requires Shaped(record) && HasDispatch(record.dispatches, step)
    ensures IsWrite(step)
  {
  }

  lemma FullReadKeeps(env: Env, sys: System, plan: Plan)
    requires SystemOk(sys) && Running(sys.store, plan) && NothingPending(Record(sys, plan))
    requires |Record(sys, plan).steps| == 7
    ensures var r := FullReadbackStep(env, sys, plan);
            SystemOk(r.0) && NothingPending(Record(r.0, plan))
  {
    hide SystemOk, Read, NothingPending, Live, OfService, CloseStep, ReadbackMatches, SeenRefs, Escalate;
    var run := plan.request.run;
    var one := Read(env, sys, run, Campaigns, LiveRefs(sys, plan, Campaigns));
    ReadKeeps(env, sys, run, Campaigns, LiveRefs(sys, plan, Campaigns));
    var two := Read(env, one.0, run, AdGroups, LiveRefs(sys, plan, AdGroups));
    ReadKeeps(env, one.0, run, AdGroups, LiveRefs(sys, plan, AdGroups));
    var three := Read(env, two.0, run, Ads, LiveRefs(sys, plan, Ads));
    ReadKeeps(env, two.0, run, Ads, LiveRefs(sys, plan, Ads));
    var four := Read(env, three.0, run, Keywords, LiveRefs(sys, plan, Keywords));
    ReadKeeps(env, three.0, run, Keywords, LiveRefs(sys, plan, Keywords));
    if one.1.Answered? && two.1.Answered? && three.1.Answered? && four.1.Answered? {
      ReadCloses(four.0, plan, FullReadback,
                 ReadbackIds(SeenRefs(one.1.reply.readback), SeenRefs(two.1.reply.readback),
                             SeenRefs(three.1.reply.readback), SeenRefs(four.1.reply.readback)));
    }
  }

  lemma OwnedWhenNothingPending(sys: System, plan: Plan)
    requires SystemOk(sys) && Loaded(sys.store, plan) && NothingPending(Record(sys, plan))
    ensures AllOwned(sys, plan.request.execution)
  {
    hide SystemOk, IsPending, HasObjectsOf, Lockstep, RowsKnown, Accounted, Truthful, RepliesFit, Shaped, NothingPending;
    SagaParts(sys, plan);
    forall s ensures !Unregistered(Record(sys, plan), s) {
      PendingIsNext(Record(sys, plan), s);
    }
    OwnedUnlessPending(sys, plan);
  }

  lemma ReadStepInv(c: Config, env: Env)
    requires Inv(c) && c.at.Working?
    ensures Inv(DoReadStep(c, env))
  {
    hide SystemOk, RunStep, NothingPending, StartCompensation, AllOwned;
    var plan := c.at.plan;
    var next := NextStep(Record(c.sys, plan));
    if next.Some? && !IsWrite(next.value) {
      ReadStepKeeps(env, c.sys, plan, next.value);
      var ran := RunStep(env, c.sys, plan, next.value);
      OwnedWhenNothingPending(ran.0, plan);
      if ran.1.Failure? {
        CompensationStarts(ran.0, plan, ran.1.detail);
      }
    }
  }

  // ---------- compensation ----------

  /** The store never changes when a compensation is sent. */
  lemma CompensationKeepsStore(env: Env, sys: System, plan: Plan, ref: ObjectRef)
    requires Running(sys.store, plan) && Shaped(Record(sys, plan))
    ensures Send(env, sys, CompensationRequest(plan, ref)).0.store == sys.store
  {
    hide Invoke, Shaped, CancelRecord;
    var request := CompensationRequest(plan, ref);
    CompensationCancelsNothing(Record(sys, plan), request);
    assert Put(sys.store, plan.request.execution, Record(sys, plan)) == sys.store;
  }

  lemma CompensationCancelsNothing(record: SagaRecord, request: DirectRequest)
    requires Shaped(record) && request.key.CompensationKey?
    ensures CancelRecord(record, request) == record
  {
    WithoutClaimKeeps(record, request, record.dispatches);
  }

  lemma OwnedIsNumbered(sys: System, plan: Plan, ref: ObjectRef)
    requires Numbered(sys) && Loaded(sys.store, plan) && RowsKnown(sys, plan.request.execution)
    requires Owned(sys.store, plan.request.run, ref)
    ensures ref.number <= LastId(sys.adapter.sequence, ref.service)
  {
  }

  lemma DeleteRemoves(faults: Faults, sys: System, plan: Plan, ref: ObjectRef)
    requires Numbered(sys) && ref.number <= LastId(sys.adapter.sequence, ref.service)
    ensures var r := Invoke(faults, sys.adapter, CompensationRequest(plan, ref));
            && (CompensationKey(plan.request.execution, ref) in r.0.results ==>
                  ref !in r.0.objects && ref.number <= LastId(r.0.sequence, ref.service))
            && (r.1.Answered? ==> CompensationKey(plan.request.execution, ref) in r.0.results)
  {
  }

  lemma DeleteKeeps(env: Env, sys: System, plan: Plan, ref: ObjectRef)
    requires SystemOk(sys) && Running(sys.store, plan) && Owned(sys.store, plan.request.run, ref)
    ensures var r := Send(env, sys, CompensationRequest(plan, ref));
            && SystemOk(r.0) && r.0.store == sys.store
            && (r.1.Answered? ==> ref !in r.0.adapter.objects)
            && (AllOwned(sys, plan.request.execution) ==> AllOwned(r.0, plan.request.execution))
  {
    hide SystemOk, Invoke, Extends, Shaped, Lockstep, Accounted, Truthful, RepliesFit, Keyed, GrantsBound, SentOnce,
         Claim, CancelClaim, AllOwned, Owned, Numbered, RowsKnown;
    var request := CompensationRequest(plan, ref);
    SystemParts(sys);
    SagaParts(sys, plan);
    CompensationKeepsStore(env, sys, plan, ref);
    OwnedIsNumbered(sys, plan, ref);
    InvokeExtends(env.faults, sys.adapter, request);
    DeleteRemoves(env.faults, sys, plan, ref);
    var b := Invoke(env.faults, sys.adapter, request).0;
    CallKeeps(sys, b, request.key);
    if AllOwned(sys, plan.request.execution) {
      DeleteKeepsOwned(sys, b, plan, ref);
    }
    assert Send(env, sys, request).0.adapter == sys.adapter || Send(env, sys, request).0.adapter == b;
    assert sys.(adapter := sys.adapter) == sys;
  }

  lemma DeleteKeepsOwned(sys: System, b: Adapter, plan: Plan, ref: ObjectRef)
    requires Numbered(sys) && Loaded(sys.store, plan) && AllOwned(sys, plan.request.execution)
    requires Extends(sys.adapter, b, CompensationKey(plan.request.execution, ref))
    ensures AllOwned(sys.(adapter := b), plan.request.execution)
  {
    hide Stands, Numbered, Extends, Owns;
    forall s, c | Stands(sys.(adapter := b), plan.request.execution, s, c) ensures Stands(sys, plan.request.execution, s, c) {
      StandsAfterCall(sys, b, CompensationKey(plan.request.execution, ref), plan.request.execution, s, c);
    }
  }

  lemma DeleteInv(c: Config, env: Env)
    requires Inv(c) && c.at.Compensating?
    ensures Inv(DoDelete(c, env))
  {
    hide SystemOk, Send, AllOwned, Owned;
    if c.at.todo != [] {
      var plan, ref := c.at.plan, c.at.todo[0];
      if DeleteAllowed(c.sys, plan, ref) {
        DeleteKeeps(env, c.sys, plan, ref);
        assert c.at.todo == [ref] + c.at.todo[1..];
      }
    }
  }

  lemma MarkedRows(objects: seq<ObjectRow>, ref: ObjectRef)
    ensures forall r :: Owns(objects, r) && r != ref ==> Owns(MarkRows(objects, ref), r)
    ensures forall row :: row in MarkRows(objects, ref) ==>
              exists before :: before in objects && before.created == row.created && before.step == row.step
                               && (row.compensated <==> before.compensated || row.created.ref == ref)
  {
    var marked := MarkRows(objects, ref);
    forall r | Owns(objects, r) && r != ref ensures Owns(marked, r) {
      var i :| 0 <= i < |objects| && objects[i].created.ref == r && !objects[i].compensated;
      assert marked[i] == objects[i];
    }
    forall row | row in marked
      ensures exists before :: before in objects && before.created == row.created && before.step == row.step
                               && (row.compensated <==> before.compensated || row.created.ref == ref)
    {
      var i :| 0 <= i < |marked| && marked[i] == row;
      assert objects[i] in objects;
    }
  }

  lemma MarkInv(c: Config)
    requires Inv(c) && c.at.Deleted?
    ensures Inv(DoMark(c))
  {
    hide SystemOk, Shaped, KeepsSent, StatusTruthful, RowsAnswered, Covered, Bounded, WithRecord, SentOnce, Keyed, GrantsBound,
         Lockstep, Accounted, Truthful, RepliesFit, AuthorityUsed, MarkRows, Owns, Numbered, RowsKnown, Stands;
    var plan, ref := c.at.plan, c.at.ref;
    SystemParts(c.sys);
    SagaParts(c.sys, plan);
    var record := Record(c.sys, plan);
    var after := record.(objects := MarkRows(record.objects, ref));
    MarkedRows(record.objects, ref);
    RegisterShape(record, after.objects);
    SettledSent(c.sys, plan);
    SameSent(c.sys, plan, after);
    InFlightTruthful(c.sys, plan.request.execution, after);
    IndexBounded(c.sys);
    MarkAnswered(c.sys, plan, ref);
    assert forall s, r :: Stands(c.sys, plan.request.execution, s, r) ==> Owns(after.objects, r.ref) by {
      MarkOwned(c.sys, plan, ref);
    }
    CoveredIfOwned(c.sys, plan.request.execution, after);
    RecordKeeps(c.sys, plan, after, c.sys.store.index);
    SameIndex(c.sys, plan, after);
    MarkPosition(c.sys, plan, ref, after);
  }

  lemma SameIndex(sys: System, plan: Plan, record: SagaRecord)
    ensures WithRecord(sys, plan, record, sys.store.index) == sys.(store := Put(sys.store, plan.request.execution, record))
  {
  }

  lemma IndexBounded(sys: System)
    requires Numbered(sys)
    ensures Bounded(sys, sys.store.index)
  {
  }

  lemma MarkAnswered(sys: System, plan: Plan, ref: ObjectRef)
    requires Loaded(sys.store, plan) && RowsKnown(sys, plan.request.execution)
    ensures RowsAnswered(sys, plan.request.execution,
                         Record(sys, plan).(objects := MarkRows(Record(sys, plan).objects, ref)), sys.store.index)
  {
    MarkedDistinct(Record(sys, plan).objects, ref);
    hide MarkRows;
    MarkedRows(Record(sys, plan).objects, ref);
  }

  lemma MarkedDistinct(objects: seq<ObjectRow>, ref: ObjectRef)
    requires DistinctRows(objects)
    ensures DistinctRows(MarkRows(objects, ref))
  {
    assert forall i :: 0 <= i < |objects| ==> MarkRows(objects, ref)[i].created == objects[i].created;
  }

  lemma MarkOwned(sys: System, plan: Plan, ref: ObjectRef)
    requires Loaded(sys.store, plan) && AllOwned(sys, plan.request.execution) && ref !in sys.adapter.objects
    ensures forall s, r :: Stands(sys, plan.request.execution, s, r) ==> Owns(MarkRows(Record(sys, plan).objects, ref), r.ref)
  {
    hide MarkRows, Owns;
    MarkedRows(Record(sys, plan).objects, ref);
  }

  lemma CoveredIfOwned(sys: System, k: string, record: SagaRecord)
    requires forall s, r :: Stands(sys, k, s, r) ==> Owns(record.objects, r.ref)
    ensures Covered(sys, k, record)
  {
    hide Stands, Owns, Unregistered;
  }

  lemma MarkPosition(sys: System, plan: Plan, ref: ObjectRef, after: SagaRecord)
    requires Running(sys.store, plan) && after == Record(sys, plan).(objects := MarkRows(Record(sys, plan).objects, ref))
    requires forall s, r :: Stands(sys, plan.request.execution, s, r) ==> Owns(after.objects, r.ref)
    ensures var later := sys.(store := Put(sys.store, plan.request.execution, after));
            && Running(later.store, plan)
            && AllOwned(later, plan.request.execution)
            && forall todo, failures :: Listed(sys, plan, todo + {ref}, failures) ==> Listed(later, plan, todo, failures)
  {
    hide MarkRows, Owns;
    var later := sys.(store := Put(sys.store, plan.request.execution, after));
    assert forall s, r :: Stands(later, plan.request.execution, s, r) <==> Stands(sys, plan.request.execution, s, r);
    MarkedRows(Record(sys, plan).objects, ref);
  }

  lemma FinishCompensationInv(c: Config)
    requires Inv(c) && c.at.Compensating?
    ensures Inv(DoFinishCompensation(c))
  {
    hide SystemOk, Stands, Settle;
    if c.at.todo == [] {
      var plan := c.at.plan;
      var status := if c.at.nothing then SagaStatus.Failed else if c.at.failures > 0 then CompensationRequired else PartiallyApplied;
      SettleKeeps(c.sys, plan, status, c.at.detail);
    }
  }

  // ---------- every run ----------

  lemma StepInv(c: Config, event: Event)
    requires Inv(c)
    ensures Inv(Next(c, event))
  {
    hide SystemOk, PositionOk, DoBegin, DoClaim, DoSend, DoRecover, DoUseAuthority, DoRegister, DoClose, DoReadOnly, DoReadStep, DoDelete,
         DoMark, DoFinishCompensation, CancelClaim;
    match event
    case Crash => CrashInv(c);
    case Drift(objects) => if objects.Keys == c.sys.adapter.objects.Keys { DriftInv(c, objects); }
    case AddReservation(id, reservation) => AddReservationInv(c, id, reservation);
    case AddApproval(id, approval) => AddApprovalInv(c, id, approval);
    case Begin(plan, now, approver) => if c.at.Idle? { BeginInv(c, plan, now, approver); } else { Elsewhere(c, event); }
    case ClaimWrite(gateOpen) => if c.at.Working? { ClaimInv(c, gateOpen); } else { Elsewhere(c, event); }
    case RefuseWrite => RefuseInv(c);
    case SendWrite(faults) => if c.at.Claimed? { SendInv(c, faults); } else { Elsewhere(c, event); }
    case Recover => if c.at.Reconciling? { RecoverInv(c); } else { Elsewhere(c, event); }
    case UseAuthority => if c.at.Replied? { UseInv(c); } else { Elsewhere(c, event); }
    case RegisterObjects => RegisterObjectsInv(c);
    case CloseWrite => CloseWriteInv(c);
    case ReadOnly(faults, service) => if c.at.Working? { ReadOnlyInv(c, faults, service); } else { Elsewhere(c, event); }
    case RunReadStep(env) => if c.at.Working? { ReadStepInv(c, env); } else { Elsewhere(c, event); }
    case Abandon => AbandonInv(c);
    case DeleteNext(env) => if c.at.Compensating? { DeleteInv(c, env); } else { Elsewhere(c, event); }
    case MarkDeleted => if c.at.Deleted? { MarkInv(c); } else { Elsewhere(c, event); }
    case FinishCompensation => if c.at.Compensating? { FinishCompensationInv(c); } else { Elsewhere(c, event); }
    case FinishApplied => FinishAppliedInv(c);
  }

  /** An event that does not belong to the service's position changes nothing. */
  lemma Elsewhere(c: Config, event: Event)
    requires (event.Begin? && !c.at.Idle?) || (event.ClaimWrite? && !c.at.Working?) || (event.SendWrite? && !c.at.Claimed?)
             || (event.Recover? && !c.at.Reconciling?) || (event.UseAuthority? && !c.at.Replied?)
             || (event.ReadOnly? && !c.at.Working?) || (event.RunReadStep? && !c.at.Working?)
             || (event.DeleteNext? && !c.at.Compensating?) || (event.MarkDeleted? && !c.at.Deleted?)
             || (event.FinishCompensation? && !c.at.Compensating?)
    ensures Next(c, event) == c
  {
    hide StartOrLoad, RunStep, Send, Read, Invoke, Claim, HandlerRequest, ConsumeAuthority, MarkCompensated;
  }

  lemma CrashInv(c: Config)
    requires Inv(c)
    ensures Inv(c.(at := Idle))
  {
    hide SystemOk;
  }

  lemma RefuseInv(c: Config)
    requires Inv(c)
    ensures Inv(Next(c, RefuseWrite))
  {
    hide SystemOk, RequestFits, Times, CancelClaim, AllOwned, Listed;
    if c.at.Claimed? {
      RequestKey(c.at.plan, c.at.step, c.at.request);
      RequestRun(c.at.plan, c.at.step, c.at.request);
      RefuseKeeps(c.sys, c.at.plan, c.at.step, c.at.request);
    }
  }

  lemma RegisterObjectsInv(c: Config)
    requires Inv(c)
    ensures Inv(DoRegister(c))
  {
    hide SystemOk, RegisterAt, AuthorityUsed, AllOwned, Listed;
    if c.at.Replied? && IsAdd(c.at.step) && c.at.step != CampaignAdd {
      RegisterInv(c, c.at.plan, c.at.step, c.at.reply, c.at.origin);
    } else if c.at.Authorized? {
      RegisterInv(c, c.at.plan, CampaignAdd, c.at.reply, c.at.origin);
    }
  }

  lemma CloseWriteInv(c: Config)
    requires Inv(c)
    ensures Inv(DoClose(c))
  {
    hide SystemOk, CloseAt, Settle, StartCompensation, AllOwned, Listed, AuthorityUsed;
    if c.at.Registered? {
      CloseRegisteredInv(c);
    } else if c.at.Replied? && c.at.step in {ModerationSubmit, CampaignLaunch} {
      CloseRepliedInv(c);
    }
  }

  lemma AbandonInv(c: Config)
    requires Inv(c)
    ensures Inv(DoAbandon(c))
  {
    hide SystemOk, Settle, AllOwned, Listed, AuthorityUsed;
    if c.at.Abandoned? {
      SettleKeeps(c.sys, c.at.plan, UnknownResult, "FAKE_DIRECT_OUTCOME_UNKNOWN");
    }
  }

  lemma FinishAppliedInv(c: Config)
    requires Inv(c)
    ensures Inv(DoFinishApplied(c))
  {
    hide SystemOk, Settle, AllOwned, Listed, AuthorityUsed;
    if c.at.Working? && |Record(c.sys, c.at.plan).steps| == |SAGA_STEPS| {
      SettleKeeps(c.sys, c.at.plan, Applied, "");
    }
  }

  lemma InitialInv(c: Config)
    requires Initial(c)
    ensures Inv(c)
  {
  }

  lemma {:induction false} RunInv(c: Config, events: seq<Event>)
    requires Inv(c)
    ensures Inv(RunEvents(c, events))
    decreases |events|
  {
    hide Inv, Next;
    if events != [] {
      StepInv(c, events[0]);
      RunInv(Next(c, events[0]), events[1..]);
    }
  }
}
