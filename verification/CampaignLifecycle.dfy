/** The connector and the lifecycle service as objects over the durable store and the adapter. */
module CampaignLifecycle {
  import opened Basics
  import opened CampaignTypes
  import opened DirectAdapter
  import opened SagaStore
  import opened SagaService

  /** Claims, authorizes and invokes; `closed` and `blocked` are the operations its gate and its audit refuse. */
  class DirectManagementConnector {
    const store: CampaignSagaStore
    const adapter: FakeDirectManagementAdapter
    const closed: set<OpKey>
    const blocked: set<OpKey>

    constructor (store: CampaignSagaStore, adapter: FakeDirectManagementAdapter, closed: set<OpKey>, blocked: set<OpKey>)
      ensures this.store == store && this.adapter == adapter && this.closed == closed && this.blocked == blocked
    {
      this.store, this.adapter, this.closed, this.blocked := store, adapter, closed, blocked;
    }

    function View(): System
      reads store, adapter
    {
      System(store.View(), adapter.View())
    }

    function Surroundings(): Env {
      Env(adapter.faults, closed, blocked)
    }

    /** A write: it reaches the adapter only after the claim stands and the boundary has let it pass. */
    method Write(request: DirectRequest) returns (outcome: Outcome)
      modifies store, adapter
      ensures (View(), outcome) == Send(Surroundings(), old(View()), request)
    {
      hide Claim, CancelClaim, Invoke, Owned;
      if request.verb != Add && exists id <- IdsOf(request.payload) :: !Owned(store.View(), request.run, id) {
        return TransitionRejected("RUN_OWNERSHIP_REQUIRED");
      }
      var claimed := store.ClaimDirectOperation(request, request.key !in closed);
      if claimed.Rejected? {
        store.CancelDirectOperationClaim(request);
        return TransitionRejected(claimed.reason);
      }
      if request.key in closed + blocked {
        store.CancelDirectOperationClaim(request);
        return TransitionRejected("WRITE_BOUNDARY_REFUSED");
      }
      outcome := adapter.InvokeRequest(request);
      if outcome.Answered? && (outcome.reply.service != request.service || outcome.reply.verb != request.verb) {
        outcome := TransitionRejected("DIRECT_RESPONSE_TYPE_MISMATCH");
      }
    }

    method Get(run: string, service: Service, ids: seq<ObjectRef>) returns (outcome: Outcome)
      modifies adapter
      ensures (View(), outcome) == Read(Surroundings(), old(View()), run, service, ids)
    {
      hide Invoke, Owned;
      if ids == [] {
        return TransitionRejected("DIRECT_OBJECT_IDS_INVALID");
      }
      if exists id <- ids :: !Owned(store.View(), run, id) {
        return TransitionRejected("RUN_OWNERSHIP_REQUIRED");
      }
      outcome := adapter.InvokeRequest(ReadRequest(run, service, ids));
    }
  }

  class CampaignLifecycleService {
    const connector: DirectManagementConnector
    const store: CampaignSagaStore

    constructor (connector: DirectManagementConnector)
      ensures this.connector == connector && store == connector.store
    {
      this.connector := connector;
      this.store := connector.store;
    }

    predicate Valid() {
      store == connector.store
    }

    function View(): System
      reads connector.store, connector.adapter
    {
      connector.View()
    }

    function Surroundings(): Env {
      connector.Surroundings()
    }

    method Close(plan: Plan, step: Step, response: Response) returns (outcome: StepOutcome)
      requires Valid() && Running(View().store, plan)
      modifies store
      ensures (View(), outcome) == CloseStep(old(View()), plan, step, response)
    {
      hide Complete;
      var completed := store.CompleteStep(plan.request.execution, step, response);
      outcome := if completed.Ok? then Done else Raised(completed.reason);
      if completed.Rejected? {
        CompleteRejectedKeeps(old(View().store), plan.request.execution, step, response);
      }
    }

    /** Registers the answered objects before their types are checked. */
    method CompleteAddStep(plan: Plan, step: Step, created: seq<Created>) returns (outcome: StepOutcome)
      requires Valid() && Running(View().store, plan)
      modifies store
      ensures (View(), outcome) == CompleteAdd(old(View()), plan, step, created)
    {
      hide Register, TypesMatch, CloseStep;
      var registered := store.RegisterDispatchedObjects(plan.request.execution, step, created);
      if registered.Rejected? {
        RegisterRejectedKeeps(old(View().store), plan.request.execution, step, created);
        return Raised(registered.reason);
      }
      RegisterKeepsRunning(old(View().store), plan, step, created);
      if !TypesMatch(created, step) {
        return Failure("CREATED_OBJECT_TYPE_MISMATCH");
      }
      outcome := Close(plan, step, Ids(CreatedRefs(created)));
    }

    method AddStep(plan: Plan, step: Step) returns (outcome: StepOutcome)
      requires Valid() && Running(View().store, plan) && IsAdd(step)
      modifies store, connector.adapter
      ensures (View(), outcome) == SagaService.AddStep(Surroundings(), old(View()), plan, step)
    {
      hide Send, Live, OfService, CompleteAdd, HandlerRequest;
      var request := HandlerRequest(plan, Live(Record(View(), plan).objects), step);
      if request.Rejected? {
        return Raised(request.reason);
      }
      HandlerRun(plan, Live(Record(View(), plan).objects), step);
      SendKeepsRunning(Surroundings(), View(), plan, request.value);
      var sent := connector.Write(request.value);
      if !sent.Answered? {
        return Escalate(sent);
      }
      if step == CampaignAdd {
        ConsumeKeepsRunning(View().store, plan);
        var consumed := store.ConsumeFirstWriteAuthority(plan);
        if consumed.Rejected? {
          return Unknown;
        }
      }
      outcome := CompleteAddStep(plan, step, sent.reply.created);
    }

    method SubmitStep(plan: Plan) returns (outcome: StepOutcome)
      requires Valid() && Running(View().store, plan)
      modifies store, connector.adapter
      ensures (View(), outcome) == SagaService.SubmitStep(Surroundings(), old(View()), plan)
    {
      hide Send, Live, OfService, CloseStep, HandlerRequest, StateAllows, StatesOf;
      var request := HandlerRequest(plan, Live(Record(View(), plan).objects), ModerationSubmit);
      if request.Rejected? {
        return Raised(request.reason);
      }
      if exists id <- IdsOf(request.value.payload) :: !StateAllows(View(), plan.request.run, id, {Draft}) {
        return Raised("INVALID_DIRECT_STATE_TRANSITION");
      }
      HandlerRun(plan, Live(Record(View(), plan).objects), ModerationSubmit);
      SendKeepsRunning(Surroundings(), View(), plan, request.value);
      var sent := connector.Write(request.value);
      if !sent.Answered? {
        return Escalate(sent);
      }
      outcome := Close(plan, ModerationSubmit, States(StatesOf(sent.reply.readback)));
    }

    method ModerationStep(plan: Plan) returns (outcome: StepOutcome)
      requires Valid() && Running(View().store, plan)
      modifies store, connector.adapter
      ensures (View(), outcome) == SagaService.ModerationStep(Surroundings(), old(View()), plan)
    {
      hide Read, Live, OfService, CloseStep, AllIn, StatesOf;
      ReadKeepsStore(Surroundings(), View(), plan.request.run, Ads, LiveRefs(View(), plan, Ads));
      var read := connector.Get(plan.request.run, Ads, LiveRefs(View(), plan, Ads));
      if !read.Answered? {
        return Escalate(read);
      }
      if !AllIn(read.reply.readback, Moderation) {
        return Failure("MODERATION_REQUEST_NOT_ACCEPTED");
      }
      outcome := Close(plan, ModerationReadback, States(StatesOf(read.reply.readback)));
    }

    method LaunchStep(plan: Plan) returns (outcome: StepOutcome)
      requires Valid() && Running(View().store, plan)
      modifies store, connector.adapter
      ensures (View(), outcome) == SagaService.LaunchStep(Surroundings(), old(View()), plan)
    {
      hide Send, Live, OfService, CloseStep, StateAllows;
      var request := HandlerRequest(plan, Live(Record(View(), plan).objects), CampaignLaunch);
      if request.Rejected? {
        return Raised(request.reason);
      }
      if !StateAllows(View(), plan.request.run, request.value.payload.id, {Suspended}) {
        return Raised("INVALID_DIRECT_STATE_TRANSITION");
      }
      HandlerRun(plan, Live(Record(View(), plan).objects), CampaignLaunch);
      SendKeepsRunning(Surroundings(), View(), plan, request.value);
      var sent := connector.Write(request.value);
      if !sent.Answered? {
        return Escalate(sent);
      }
      if sent.reply.readback == [] || sent.reply.readback[0].item.state != On {
        return Failure("CAMPAIGN_LAUNCH_READBACK_FAILED");
      }
      outcome := Close(plan, CampaignLaunch, States([On]));
    }

    /** Reads every object back, kind by kind, and compares it with the draft. */
    method FullReadbackStep(plan: Plan) returns (outcome: StepOutcome)
      requires Valid() && Running(View().store, plan)
      modifies store, connector.adapter
      ensures (View(), outcome) == SagaService.FullReadbackStep(Surroundings(), old(View()), plan)
    {
      hide Read, Live, OfService, CloseStep, ReadbackMatches, SeenRefs;
      var run := plan.request.run;
      ReadKeepsStore(Surroundings(), View(), run, Campaigns, LiveRefs(View(), plan, Campaigns));
      var campaigns := connector.Get(run, Campaigns, LiveRefs(View(), plan, Campaigns));
      if !campaigns.Answered? {
        return Escalate(campaigns);
      }
      ReadKeepsStore(Surroundings(), View(), run, AdGroups, LiveRefs(View(), plan, AdGroups));
      var groups := connector.Get(run, AdGroups, LiveRefs(View(), plan, AdGroups));
      if !groups.Answered? {
        return Escalate(groups);
      }
      ReadKeepsStore(Surroundings(), View(), run, Ads, LiveRefs(View(), plan, Ads));
      var ads := connector.Get(run, Ads, LiveRefs(View(), plan, Ads));
      if !ads.Answered? {
        return Escalate(ads);
      }
      ReadKeepsStore(Surroundings(), View(), run, Keywords, LiveRefs(View(), plan, Keywords));
      var keywords := connector.Get(run, Keywords, LiveRefs(View(), plan, Keywords));
      if !keywords.Answered? {
        return Escalate(keywords);
      }
      var c, g, a, k := campaigns.reply.readback, groups.reply.readback, ads.reply.readback, keywords.reply.readback;
      if !ReadbackMatches(plan.request.draft, c, g, a, k) {
        return Failure("FULL_CAMPAIGN_READBACK_FAILED");
      }
      outcome := Close(plan, FullReadback, ReadbackIds(SeenRefs(c), SeenRefs(g), SeenRefs(a), SeenRefs(k)));
    }

    method RunStep(plan: Plan, step: Step) returns (outcome: StepOutcome)
      requires Valid() && Running(View().store, plan)
      modifies store, connector.adapter
      ensures (View(), outcome) == SagaService.RunStep(Surroundings(), old(View()), plan, step)
    {
      hide SagaService.AddStep, SagaService.SubmitStep, SagaService.LaunchStep, SagaService.ModerationStep, SagaService.FullReadbackStep,
           BeginStep;
      if step == CampaignAdd && StepKey(plan.request.execution, step) in connector.closed {
        return Raised("KILL_SWITCH_ACTIVE");
      }
      var begun := BeginStep(Record(View(), plan), step);
      if begun.Rejected? {
        return Raised(begun.reason);
      }
      match step
      case ModerationSubmit => outcome := SubmitStep(plan);
      case ModerationReadback => outcome := ModerationStep(plan);
      case CampaignLaunch => outcome := LaunchStep(plan);
      case FullReadback => outcome := FullReadbackStep(plan);
      case _ => outcome := AddStep(plan, step);
    }

    /** Settles a pending dispatch from the adapter's remembered result. */
    method ReconcilePendingDispatch(plan: Plan) returns (result: Reconciliation)
      requires Valid() && Running(View().store, plan)
      modifies store
      ensures (View(), result) == Reconcile(old(View()), plan)
    {
      hide FirstPending, CompleteAdd, CloseStep, ConsumeAuthority, AllIn, StatesOf;
      var execution := plan.request.execution;
      var pending := FirstPending(Record(View(), plan).dispatches);
      if pending.None? {
        return Resolved;
      }
      var step, request := pending.value.step, pending.value.request;
      if request.key !in connector.adapter.results {
        store.FinishSaga(execution, UnknownResult, "READBACK_COULD_NOT_RESOLVE_DISPATCH");
        return Unresolved;
      }
      var reply := connector.adapter.results[request.key];
      if reply.service != request.service || reply.verb != request.verb {
        return ReconcileRaised("DIRECT_RESPONSE_TYPE_MISMATCH");
      }
      result := Resolve(plan, step, reply);
    }

    method Resolve(plan: Plan, step: Step, reply: Reply) returns (result: Reconciliation)
      requires Valid() && Running(View().store, plan)
      modifies store
      ensures (View(), result) == ResolveWith(old(View()), plan, step, reply)
    {
      hide CompleteAdd, CloseStep, CanConsume, AllIn, StatesOf;
      var execution := plan.request.execution;
      var outcome: StepOutcome;
      if IsAdd(step) {
        if step == CampaignAdd {
          ConsumeKeepsRunning(View().store, plan);
          var consumed := store.ConsumeFirstWriteAuthority(plan);
          if consumed.Rejected? {
            store.FinishSaga(execution, UnknownResult, "FIRST_WRITE_AUTHORITY_RECONCILIATION_FAILED");
            return Unresolved;
          }
        }
        CompleteAddKeepsAdapter(View(), plan, step, reply.created);
        outcome := CompleteAddStep(plan, step, reply.created);
      } else if step == ModerationSubmit {
        if reply.readback == [] || !AllIn(reply.readback, Moderation) {
          store.FinishSaga(execution, SagaStatus.Failed, "RECONCILIATION_CONFIRMED_ORIGINAL_STATE");
          return Unresolved;
        }
        CloseIsKnown(View(), plan, step, States(StatesOf(reply.readback)));
        outcome := Close(plan, step, States(StatesOf(reply.readback)));
      } else if step == CampaignLaunch {
        if |reply.readback| != 1 || reply.readback[0].item.state != On {
          store.FinishSaga(execution, SagaStatus.Failed, "RECONCILIATION_CONFIRMED_ORIGINAL_STATE");
          return Unresolved;
        }
        CloseIsKnown(View(), plan, step, States([On]));
        outcome := Close(plan, step, States([On]));
      } else {
        store.FinishSaga(execution, UnknownResult, "RECONCILIATION_STEP_UNSUPPORTED");
        return Unresolved;
      }
      result := if outcome.Done? then Resolved
                else ReconcileRaised(if outcome.Failure? then outcome.detail else outcome.reason);
    }

    method DeleteCreated(plan: Plan, ref: ObjectRef) returns (deleted: bool)
      requires Valid() && Running(View().store, plan)
      modifies store, connector.adapter
      ensures (View(), deleted) == CompensateOne(Surroundings(), old(View()), plan, ref)
    {
      hide Send, DeleteAllowed, MarkRows;
      if !DeleteAllowed(View(), plan, ref) {
        return false;
      }
      SendKeepsRunning(Surroundings(), View(), plan, CompensationRequest(plan, ref));
      var sent := connector.Write(CompensationRequest(plan, ref));
      if sent.Answered? {
        store.MarkObjectCompensated(plan.request.execution, ref);
      }
      deleted := sent.Answered?;
    }

    /** Deletes the listed objects one after the other; a failure is counted and the loop goes on. */
    method CompensateCreated(plan: Plan, todo: seq<ObjectRef>) returns (failures: nat)
      requires Valid() && Running(View().store, plan)
      modifies store, connector.adapter
      ensures (View(), failures) == CompensateAll(Surroundings(), old(View()), plan, todo)
    {
      hide CompensateOne;
      failures := 0;
      ghost var whole := CompensateAll(Surroundings(), View(), plan, todo);
      assert todo[0..] == todo;
      for i := 0 to |todo|
        invariant Running(View().store, plan)
        invariant var rest := CompensateAll(Surroundings(), View(), plan, todo[i..]);
                  whole == (rest.0, failures + rest.1)
      {
        assert todo[i..][0] == todo[i] && todo[i..][1..] == todo[i + 1..];
        var deleted := DeleteCreated(plan, todo[i]);
        if !deleted {
          failures := failures + 1;
        }
      }
      assert todo[|todo|..] == [];
    }

    method FinishAfterDefiniteFailure(plan: Plan, detail: string)
      requires Valid() && Running(View().store, plan)
      modifies store, connector.adapter
      ensures View() == FinishAfterFailure(Surroundings(), old(View()), plan, detail)
    {
      hide CompensateAll, Live;
      var created := CreatedRefs(Live(Record(View(), plan).objects));
      if created == [] {
        store.FinishSaga(plan.request.execution, SagaStatus.Failed, detail);
        return;
      }
      var failures := CompensateCreated(plan, Reversed(created));
      store.FinishSaga(plan.request.execution, if failures > 0 then CompensationRequired else PartiallyApplied, detail);
    }

    /** Runs the remaining steps in order until one does not complete or the budget is used. */
    method RunRemaining(plan: Plan, first: nat, budget: Option<nat>) returns (outcome: StepOutcome)
      requires Valid() && Running(View().store, plan)
      modifies store, connector.adapter
      ensures (View(), outcome) == RunSteps(Surroundings(), old(View()), plan, first, budget)
    {
      hide SagaService.RunStep;
      ghost var whole := RunSteps(Surroundings(), View(), plan, first, budget);
      var next, left := first, budget;
      while next < |SAGA_STEPS| && left != Some(0)
        invariant Running(View().store, plan)
        invariant whole == RunSteps(Surroundings(), View(), plan, next, left)
        decreases |SAGA_STEPS| - next
      {
        outcome := RunStep(plan, SAGA_STEPS[next]);
        if !outcome.Done? {
          return;
        }
        next := next + 1;
        left := if left.Some? then Some(left.value - 1) else None;
      }
      outcome := Done;
    }

    method FinishWhenComplete(plan: Plan) returns (outcome: ExecuteOutcome)
      requires Valid() && Loaded(View().store, plan)
      modifies store
      ensures (View(), outcome) == FinishIfComplete(old(View()), plan)
    {
      if |Record(View(), plan).steps| == |SAGA_STEPS| {
        store.FinishSaga(plan.request.execution, Applied, "");
      }
      outcome := Returned(false);
    }

    /** Creates the campaign, or carries on with a saga that is in flight, at most `maxSteps` steps when given. */
    method Execute(plan: Plan, now: int, approver: Principal, maxSteps: Option<int>) returns (outcome: ExecuteOutcome)
      requires Valid() && KeyedFor(View().store, plan)
      modifies store, connector.adapter
      ensures (View(), outcome) == SagaService.Execute(Surroundings(), old(View()), plan, now, approver, maxSteps)
      decreases LossesLeft(Surroundings(), View()), 1
    {
      hide StartOrLoad, SagaService.Continue, ValidDraft;
      if !ValidDraft(plan.request.draft) {
        return ExecuteRaised("CAMPAIGN_DRAFT_INVALID");
      }
      StartIsKeyed(View().store, plan, now, approver);
      var started := store.StartOrLoadSaga(plan, now, approver);
      if started.Rejected? {
        return ExecuteRaised(started.reason);
      }
      if started.value != InFlight {
        return Returned(true);
      }
      outcome := Continue(plan, now, approver, maxSteps);
    }

    method Continue(plan: Plan, now: int, approver: Principal, maxSteps: Option<int>) returns (outcome: ExecuteOutcome)
      requires Valid() && Running(View().store, plan)
      modifies store, connector.adapter
      ensures (View(), outcome) == SagaService.Continue(Surroundings(), old(View()), plan, now, approver, maxSteps)
      decreases LossesLeft(Surroundings(), View()), 0
    {
      hide Reconcile, RunSteps, FinishAfterFailure, FinishIfComplete, SagaService.Execute;
      var entry := ReconcilePendingDispatch(plan);
      if entry.ReconcileRaised? {
        return ExecuteRaised(entry.reason);
      }
      if entry.Unresolved? {
        return Returned(false);
      }
      if maxSteps.Some? && maxSteps.value < 1 {
        return ExecuteRaised("MAX_STEPS_INVALID");
      }
      var budget := if maxSteps.Some? then Some(maxSteps.value as nat) else None;
      var ran := RunRemaining(plan, |Record(View(), plan).steps|, budget);
      if ran.Raised? {
        return ExecuteRaised(ran.reason);
      }
      if ran.Failure? {
        FinishAfterDefiniteFailure(plan, ran.detail);
        outcome := FinishWhenComplete(plan);
        return;
      }
      if ran.Unknown? {
        var again := ReconcilePendingDispatch(plan);
        if again.ReconcileRaised? {
          return ExecuteRaised(again.reason);
        }
        if again.Unresolved? {
          store.FinishSaga(plan.request.execution, UnknownResult, "FAKE_DIRECT_OUTCOME_UNKNOWN");
        } else if maxSteps.None? {
          RetryConsumesLoss(Surroundings(), old(View()), plan, budget);
          outcome := Execute(plan, now, approver, None);
          return;
        }
      }
      outcome := FinishWhenComplete(plan);
    }
  }

  lemma CompleteRejectedKeeps(st: Store, execution: string, step: Step, response: Response)
    requires execution in st.sagas && Complete(st, execution, step, response).1.Rejected?
    ensures Complete(st, execution, step, response).0 == st
  {
    hide CompleteRecord;
  }

  lemma RegisterRejectedKeeps(st: Store, execution: string, step: Step, created: seq<Created>)
    requires execution in st.sagas && Register(st, execution, step, created).1.Rejected?
    ensures Register(st, execution, step, created).0 == st
  {
    hide RegisterRecord;
  }

  lemma HandlerRun(plan: Plan, live: seq<Created>, step: Step)
    requires HandlerRequest(plan, live, step).Ok?
    ensures HandlerRequest(plan, live, step).value.run == plan.request.run
  {
    hide Live, OfService;
  }

  lemma ReadKeepsStore(env: Env, sys: System, run: string, service: Service, ids: seq<ObjectRef>)
    ensures Read(env, sys, run, service, ids).0.store == sys.store
  {
    hide Invoke, Owned;
  }

  lemma CloseIsKnown(sys: System, plan: Plan, step: Step, response: Response)
    requires Running(sys.store, plan)
    ensures !CloseStep(sys, plan, step, response).1.Unknown?
  {
    hide Complete;
  }

  lemma StartIsKeyed(st: Store, plan: Plan, now: int, approver: Principal)
    requires KeyedFor(st, plan)
    ensures var r := StartOrLoad(st, plan, now, approver);
            && (r.1 == Ok(InFlight) ==> Running(r.0, plan))
            && (r.1.Rejected? || r.1.value != InFlight ==> r.0 == st)
  {
    hide ReservationProblem, ApprovalReservable;
  }
}
