/**
 * The service itself is one schedule of the saga machine: every call of `execute`, with its steps, reconciliation
 * and compensation, is a run of events, so whatever holds after every run holds after every call.
 */
module SagaRefinement {
  import opened Basics
  import opened CampaignTypes
  import opened DirectAdapter
  import opened SagaStore
  import opened SagaService
  import opened SagaMachine
  import opened SagaSafety
  import opened SagaInvariant
  import opened SagaEvents
  import opened SagaRuns

  // ---------- runs of events ----------

  lemma {:induction false} RunConcat(c: Config, first: seq<Event>, second: seq<Event>)
    ensures RunEvents(c, first + second) == RunEvents(RunEvents(c, first), second)
    decreases |first|
  {
    hide Next;
    if first == [] {
      assert first + second == second;
    } else {
      assert (first + second)[1..] == first[1..] + second;
      RunConcat(Next(c, first[0]), first[1..], second);
    }
  }

  lemma {:induction false} RunOne(c: Config, event: Event)
    ensures RunEvents(c, [event]) == Next(c, event)
  {
    hide Next;
    assert [event][1..] == [];
  }

  /** Appends one event to a run. */
  lemma {:induction false} RunThen(c: Config, events: seq<Event>, event: Event)
    ensures RunEvents(c, events + [event]) == Next(RunEvents(c, events), event)
  {
    hide Next;
    RunConcat(c, events, [event]);
    RunOne(RunEvents(c, events), event);
  }

  // ---------- where the machine stands after one call of the service's parts ----------

  function AfterStep(r: (System, StepOutcome), plan: Plan): Config
    requires Loaded(r.0.store, plan)
  {
    Config(r.0,
           match r.1
           case Done => Working(plan)
           case Unknown => Reconciling(plan, AfterUnknown)
           case Failure(detail) => StartCompensation(r.0, plan, detail)
           case Raised(_) => Idle)
  }

  function AfterReconcile(r: (System, Reconciliation), plan: Plan, origin: Origin): Config {
    Config(r.0,
           match r.1
           case Resolved => Working(plan)
           case Unresolved => GiveUp(plan, origin)
           case ReconcileRaised(_) => Idle)
  }

  /** How a closing step ends: an outcome met while reconciling is raised, never compensated. */
  function AfterClose(r: (System, StepOutcome), plan: Plan, origin: Origin): Config
    requires Loaded(r.0.store, plan)
  {
    if r.1.Failure? && origin != Called then Config(r.0, Idle) else AfterStep(r, plan)
  }

  // ---------- registering and closing an add step ----------

  lemma RegisterIsARun(c: Config, plan: Plan, step: Step, reply: Reply, origin: Origin) returns (events: seq<Event>)
    requires Running(c.sys.store, plan) && IsAdd(step)
    requires c.at == (if step == CampaignAdd then Authorized(plan, reply, origin) else Replied(plan, step, reply, origin))
    ensures RunEvents(c, events) == AfterClose(CompleteAdd(c.sys, plan, step, reply.created), plan, origin)
  {
    hide Register, TypesMatch, Complete, StartCompensation, RunEvents, DoBegin, DoClaim, DoSend, DoRecover, DoUseAuthority,
         DoReadOnly, DoReadStep, DoAbandon, DoDelete, DoMark, DoFinishCompensation, DoFinishApplied, CancelClaim,
         RegisterReservation, RegisterApproval;
    events := [RegisterObjects];
    RunOne(c, RegisterObjects);
    var registered := Register(c.sys.store, plan.request.execution, step, reply.created);
    assert DoRegister(c) == RegisterAt(c, plan, step, reply.created, origin);
    if registered.1.Ok? {
      var d := Config(c.sys.(store := registered.0), Registered(plan, step, reply.created, origin));
      RegisterKeepsRunning(c.sys.store, plan, step, reply.created);
      RunThen(c, [RegisterObjects], CloseWrite);
      events := [RegisterObjects] + [CloseWrite];
    }
  }

  // ---------- a write step ----------

  /** What `Send` does once the ownership check has passed, event by event. */
  lemma {:induction false} ClaimIsARun(c: Config, plan: Plan, step: Step, request: DirectRequest, gateOpen: bool)
    requires c.at == Working(plan) && Running(c.sys.store, plan) && IsWrite(step)
    requires BeginStep(Record(c.sys, plan), step).Ok?
    requires HandlerRequest(plan, Live(Record(c.sys, plan).objects), step) == Ok(request)
    ensures var claimed := Claim(c.sys.store, request, gateOpen);
            && claimed.1 != Ok(false)
            && RunEvents(c, [ClaimWrite(gateOpen)]) ==
               (if claimed.1.Ok? then Config(c.sys.(store := claimed.0), Claimed(plan, step, request))
                else Config(c.sys.(store := CancelClaim(claimed.0, request)), Idle))
  {
    hide RunEvents, CancelClaim, Live, OfService, ExpectedRequest, HasDispatch, FirstPending, DoBegin, DoSend, DoRecover,
         DoUseAuthority, DoRegister, DoClose, DoReadOnly, DoReadStep, DoAbandon, DoDelete, DoMark, DoFinishCompensation,
         DoFinishApplied, RegisterReservation, RegisterApproval;
    RunOne(c, ClaimWrite(gateOpen));
    assert NextStep(Record(c.sys, plan)) == Some(step);
  }

  function AfterSend(r: (System, Outcome), plan: Plan, step: Step): Config
    requires Loaded(r.0.store, plan)
  {
    Config(r.0,
           match r.1
           case Answered(reply) => Replied(plan, step, reply, Called)
           case DefiniteFailure(reason) => StartCompensation(r.0, plan, reason)
           case OutcomeUnknown => Reconciling(plan, AfterUnknown)
           case TransitionRejected(_) => Idle)
  }

  lemma SendIsARun(env: Env, c: Config, plan: Plan, step: Step, request: DirectRequest) returns (events: seq<Event>)
    requires c.at == Working(plan) && Running(c.sys.store, plan) && IsWrite(step)
    requires BeginStep(Record(c.sys, plan), step).Ok?
    requires HandlerRequest(plan, Live(Record(c.sys, plan).objects), step) == Ok(request)
    requires request.verb != Add ==> forall id <- IdsOf(request.payload) :: Owned(c.sys.store, request.run, id)
    requires request.run == plan.request.run
    ensures Running(Send(env, c.sys, request).0.store, plan)
    ensures RunEvents(c, events) == AfterSend(Send(env, c.sys, request), plan, step)
  {
    hide RunEvents, CancelClaim, Claim, Live, StartCompensation, Owned, BeginStep, HandlerRequest, Invoke, DoBegin, DoClaim, DoRecover,
         DoUseAuthority, DoRegister, DoClose, DoReadOnly, DoReadStep, DoAbandon, DoDelete, DoMark, DoFinishCompensation,
         DoFinishApplied, RegisterReservation, RegisterApproval;
    SendKeepsRunning(env, c.sys, plan, request);
    var gateOpen := request.key !in env.closed;
    var claimed := Claim(c.sys.store, request, gateOpen);
    ClaimIsARun(c, plan, step, request, gateOpen);
    events := [ClaimWrite(gateOpen)];
    if claimed.1.Ok? {
      var d := Config(c.sys.(store := claimed.0), Claimed(plan, step, request));
      if request.key in env.closed + env.blocked {
        RunThen(c, events, RefuseWrite);
        events := events + [RefuseWrite];
      } else {
        RunThen(c, events, SendWrite(env.faults));
        events := events + [SendWrite(env.faults)];
        assert RunEvents(c, events) == DoSend(d, env.faults);
        if Invoke(env.faults, c.sys.adapter, request).1.Answered? && Send(env, c.sys, request).1.TransitionRejected? {
          RunThen(c, events, Crash);
          events := events + [Crash];
        }
      }
    }
  }

  lemma AddStepIsARun(env: Env, c: Config, plan: Plan, step: Step) returns (events: seq<Event>)
    requires c.at == Working(plan) && Running(c.sys.store, plan) && IsAdd(step)
    requires BeginStep(Record(c.sys, plan), step).Ok?
    ensures RunEvents(c, events) == AfterStep(AddStep(env, c.sys, plan, step), plan)
  {
    hide RunEvents, CompleteAdd, Send, Live, StartCompensation, BeginStep, ConsumeAuthority, DoBegin, DoClaim, DoSend, DoRecover,
         DoRegister, DoClose, DoReadOnly, DoReadStep, DoAbandon, DoDelete, DoMark, DoFinishCompensation,
         DoFinishApplied, RegisterReservation, RegisterApproval, CancelClaim;
    var request := HandlerRequest(plan, Live(Record(c.sys, plan).objects), step);
    if request.Rejected? {
      events := [Crash];
      RunOne(c, Crash);
    } else {
      events := SendIsARun(env, c, plan, step, request.value);
      var sent := Send(env, c.sys, request.value);
      if sent.1.Answered? {
        var d := AfterSend(sent, plan, step);
        if step == CampaignAdd {
          RunThen(c, events, UseAuthority);
          events := events + [UseAuthority];
          d := DoUseAuthority(d);
        }
        if step != CampaignAdd || ConsumeAuthority(sent.0.store, plan).1.Ok? {
          ConsumeKeepsRunning(sent.0.store, plan);
          var more := RegisterIsARun(d, plan, step, sent.1.reply, Called);
          RunConcat(c, events, more);
          events := events + more;
        }
      }
    }
  }

  lemma SubmitIsARun(env: Env, c: Config, plan: Plan) returns (events: seq<Event>)
    requires c.at == Working(plan) && Running(c.sys.store, plan)
    requires BeginStep(Record(c.sys, plan), ModerationSubmit).Ok?
    ensures RunEvents(c, events) == AfterStep(SubmitStep(env, c.sys, plan), plan)
  {
    hide RunEvents, CloseStep, Send, Live, StartCompensation, BeginStep, AllIn, StatesOf, DoBegin, DoClaim, DoSend, DoRecover,
         DoRegister, DoUseAuthority, DoReadOnly, DoReadStep, DoAbandon, DoDelete, DoMark, DoFinishCompensation,
         DoFinishApplied, RegisterReservation, RegisterApproval, CancelClaim;
    var request := HandlerRequest(plan, Live(Record(c.sys, plan).objects), ModerationSubmit);
    if request.Rejected? || exists id <- IdsOf(request.value.payload) :: !StateAllows(c.sys, plan.request.run, id, {Draft}) {
      events := [Crash];
      RunOne(c, Crash);
    } else {
      events := SendIsARun(env, c, plan, ModerationSubmit, request.value);
      var sent := Send(env, c.sys, request.value);
      if sent.1.Answered? {
        CloseStepOutcome(sent.0, plan, ModerationSubmit, States(StatesOf(sent.1.reply.readback)));
        RunThen(c, events, CloseWrite);
        events := events + [CloseWrite];
      }
    }
  }

  lemma CloseStepOutcome(sys: System, plan: Plan, step: Step, response: Response)
    requires Running(sys.store, plan)
    ensures var r := CloseStep(sys, plan, step, response); r.1.Done? || r.1.Raised?
  {
    hide Complete;
  }

  lemma LaunchIsARun(env: Env, c: Config, plan: Plan) returns (events: seq<Event>)
    requires c.at == Working(plan) && Running(c.sys.store, plan)
    requires BeginStep(Record(c.sys, plan), CampaignLaunch).Ok?
    ensures RunEvents(c, events) == AfterStep(LaunchStep(env, c.sys, plan), plan)
  {
    hide RunEvents, CloseStep, Send, Live, StartCompensation, BeginStep, AllIn, StatesOf, DoBegin, DoClaim, DoSend, DoRecover,
         DoRegister, DoUseAuthority, DoReadOnly, DoReadStep, DoAbandon, DoDelete, DoMark, DoFinishCompensation,
         DoFinishApplied, RegisterReservation, RegisterApproval, CancelClaim;
    var request := HandlerRequest(plan, Live(Record(c.sys, plan).objects), CampaignLaunch);
    if request.Rejected? || !StateAllows(c.sys, plan.request.run, request.value.payload.id, {Suspended}) {
      events := [Crash];
      RunOne(c, Crash);
    } else {
      events := SendIsARun(env, c, plan, CampaignLaunch, request.value);
      var sent := Send(env, c.sys, request.value);
      if sent.1.Answered? {
        CloseStepOutcome(sent.0, plan, CampaignLaunch, States([On]));
        RunThen(c, events, CloseWrite);
        events := events + [CloseWrite];
      }
    }
  }

  /** One step of the service is a run of the machine, whatever its outcome. */
  lemma StepIsARun(env: Env, c: Config, plan: Plan, step: Step) returns (events: seq<Event>)
    requires c.at == Working(plan) && Running(c.sys.store, plan) && Ordinal(step) == |Record(c.sys, plan).steps|
    ensures RunEvents(c, events) == AfterStep(RunStep(env, c.sys, plan, step), plan)
  {
    hide RunEvents, AddStep, SubmitStep, LaunchStep, ModerationStep, FullReadbackStep, StartCompensation, BeginStep, DoBegin, DoClaim,
         DoSend, DoRecover, DoClose, DoRegister, DoUseAuthority, DoReadOnly, DoAbandon, DoDelete, DoMark, DoFinishCompensation,
         DoFinishApplied, RegisterReservation, RegisterApproval, CancelClaim;
    var begun := BeginStep(Record(c.sys, plan), step);
    if !IsWrite(step) {
      events := [RunReadStep(env)];
      RunOne(c, RunReadStep(env));
    } else if (step == CampaignAdd && StepKey(plan.request.execution, step) in env.closed) || begun.Rejected? {
      events := [Crash];
      RunOne(c, Crash);
    } else if step == ModerationSubmit {
      events := SubmitIsARun(env, c, plan);
    } else if step == CampaignLaunch {
      events := LaunchIsARun(env, c, plan);
    } else {
      events := AddStepIsARun(env, c, plan, step);
    }
  }

  // ---------- reconciliation ----------

  lemma ReconcileIsARun(c: Config, plan: Plan, origin: Origin) returns (events: seq<Event>)
    requires c.at == Reconciling(plan, origin) && origin != Called && Running(c.sys.store, plan)
    requires Shaped(Record(c.sys, plan))
    ensures RunEvents(c, events) == AfterReconcile(Reconcile(c.sys, plan), plan, origin)
  {
    hide RunEvents, ResolveWith, StartCompensation, DoBegin, DoClaim, DoSend, DoRegister, DoUseAuthority, DoClose,
         DoReadOnly, DoReadStep, DoAbandon, DoDelete, DoMark, DoFinishCompensation, Settle,
         DoFinishApplied, RegisterReservation, RegisterApproval, CancelClaim, FirstPending, Shaped;
    events := [Recover];
    RunOne(c, Recover);
    PendingFirst(Record(c.sys, plan));
    var pending := FirstPending(Record(c.sys, plan).dispatches);
    if pending.Some? && pending.value.request.key in c.sys.adapter.results {
      var step, request := pending.value.step, pending.value.request;
      var reply := c.sys.adapter.results[request.key];
      PendingIsWrite(Record(c.sys, plan));
      if reply.service != request.service || reply.verb != request.verb {
        RunThen(c, events, Crash);
        events := events + [Crash];
      } else {
        var more := ResolveIsARun(Config(c.sys, Replied(plan, step, reply, origin)), plan, step, reply, origin);
        RunConcat(c, events, more);
        events := events + more;
      }
    }
  }

  lemma ResolveIsARun(c: Config, plan: Plan, step: Step, reply: Reply, origin: Origin) returns (events: seq<Event>)
    requires c.at == Replied(plan, step, reply, origin) && origin != Called && Running(c.sys.store, plan) && IsWrite(step)
    ensures RunEvents(c, events) == AfterReconcile(ResolveWith(c.sys, plan, step, reply), plan, origin)
  {
    hide RunEvents, CompleteAdd, CloseStep, StartCompensation, ConsumeAuthority, DoBegin, DoClaim, DoSend, DoRegister, DoRecover,
         DoReadOnly, DoReadStep, DoAbandon, DoDelete, DoMark, DoFinishCompensation, AllIn, StatesOf, Settle,
         DoFinishApplied, RegisterReservation, RegisterApproval, CancelClaim;
    if step == CampaignAdd {
      events := [UseAuthority];
      RunOne(c, UseAuthority);
      if ConsumeAuthority(c.sys.store, plan).1.Ok? {
        ConsumeKeepsRunning(c.sys.store, plan);
        var more := RecoverAdd(DoUseAuthority(c), plan, step, reply, origin);
        RunConcat(c, events, more);
        events := events + more;
      }
    } else if IsAdd(step) {
      events := RecoverAdd(c, plan, step, reply, origin);
    } else {
      CloseStepOutcome(c.sys, plan, step, if step == ModerationSubmit then States(StatesOf(reply.readback)) else States([On]));
      events := [CloseWrite];
      RunOne(c, CloseWrite);
    }
  }

  lemma PendingIsWrite(record: SagaRecord)
    requires Shaped(record) && !NothingPending(record)
    ensures IsWrite(Last(record.dispatches).step)
  {
  }

  lemma RecoverAdd(c: Config, plan: Plan, step: Step, reply: Reply, origin: Origin) returns (events: seq<Event>)
    requires origin != Called && IsAdd(step)
    requires Loaded(c.sys.store, plan) && Running(c.sys.store, plan)
    requires c.at == (if step == CampaignAdd then Authorized(plan, reply, origin) else Replied(plan, step, reply, origin))
    ensures !CompleteAdd(c.sys, plan, step, reply.created).1.Unknown?
    ensures RunEvents(c, events) == AfterReconcile(Closed(CompleteAdd(c.sys, plan, step, reply.created)), plan, origin)
  {
    hide RunEvents, Register, Complete, StartCompensation, TypesMatch;
    events := RegisterIsARun(c, plan, step, reply, origin);
  }

  // ---------- compensation ----------

  lemma DeleteIsARun(env: Env, c: Config, plan: Plan, todo: seq<ObjectRef>, failures: nat, detail: string)
    returns (events: seq<Event>)
    requires todo != [] && Running(c.sys.store, plan) && c.at == Compensating(plan, todo, failures, false, detail)
    ensures var r := CompensateOne(env, c.sys, plan, todo[0]);
            RunEvents(c, events) ==
              Config(r.0, Compensating(plan, todo[1..], if r.1 then failures else failures + 1, false, detail))
  {
    hide RunEvents, Send, StartCompensation, MarkCompensated, DeleteAllowed, DoBegin, DoClaim, DoSend, DoRecover, DoClose,
         DoRegister, DoUseAuthority, DoReadOnly, DoReadStep, DoAbandon, DoFinishCompensation, DoFinishApplied, RegisterReservation,
         RegisterApproval, CancelClaim;
    events := [DeleteNext(env)];
    RunOne(c, DeleteNext(env));
    var request := CompensationRequest(plan, todo[0]);
    SendKeepsRunning(env, c.sys, plan, request);
    if DeleteAllowed(c.sys, plan, todo[0]) && Send(env, c.sys, request).1.Answered? {
      RunThen(c, events, MarkDeleted);
      events := events + [MarkDeleted];
    }
  }

  /** Compensating the first of the listed objects; the process may die before the rest. */
  lemma {:induction false} DeletesAreARun(
    env: Env, c: Config, plan: Plan, todo: seq<ObjectRef>, rest: seq<ObjectRef>, failures: nat, detail: string)
    returns (events: seq<Event>)
    requires Running(c.sys.store, plan) && c.at == Compensating(plan, todo + rest, failures, false, detail)
    ensures var r := CompensateAll(env, c.sys, plan, todo);
            RunEvents(c, events) == Config(r.0, Compensating(plan, rest, failures + r.1, false, detail))
    decreases |todo|
  {
    hide RunEvents, CompensateOne;
    events := [];
    if todo != [] {
      assert (todo + rest)[1..] == todo[1..] + rest;
      events := DeleteIsARun(env, c, plan, todo + rest, failures, detail);
      var d := RunEvents(c, events);
      var more := DeletesAreARun(env, d, plan, todo[1..], rest, d.at.failures, detail);
      RunConcat(c, events, more);
      events := events + more;
    } else {
      assert todo + rest == rest;
      RunNothing(c);
    }
  }

  lemma {:induction false} RunNothing(c: Config)
    ensures RunEvents(c, []) == c
  {
    hide Next;
  }

  lemma CompensationIsARun(env: Env, c: Config, plan: Plan, detail: string) returns (events: seq<Event>)
    requires Running(c.sys.store, plan) && c.at == StartCompensation(c.sys, plan, detail)
    ensures RunEvents(c, events) == Config(FinishAfterFailure(env, c.sys, plan, detail), Idle)
  {
    hide RunEvents, CompensateAll, DoBegin, DoClaim, DoSend, DoRecover, DoClose, Settle, Live,
         DoRegister, DoUseAuthority, DoReadOnly, DoReadStep, DoAbandon, DoFinishApplied, RegisterReservation,
         RegisterApproval, CancelClaim, DoDelete, DoMark;
    if c.at.nothing {
      events := [FinishCompensation];
      RunOne(c, FinishCompensation);
    } else {
      assert c.at.todo + [] == c.at.todo;
      events := DeletesAreARun(env, c, plan, c.at.todo, [], 0, detail);
      RunThen(c, events, FinishCompensation);
      events := events + [FinishCompensation];
    }
  }

  // ---------- a completed step ----------

  lemma ClaimKeepsSteps(st: Store, plan: Plan, request: DirectRequest, gateOpen: bool)
    requires Running(st, plan) && request.run == plan.request.run
    ensures var r := Claim(st, request, gateOpen).0;
            Running(r, plan) && r.sagas[plan.request.execution].steps == st.sagas[plan.request.execution].steps
  {
    hide ExpectedRequest, Owns, HasDispatch;
  }

  lemma CancelKeepsSteps(st: Store, plan: Plan, request: DirectRequest)
    requires Running(st, plan) && request.run == plan.request.run
    ensures var r := CancelClaim(st, request);
            Running(r, plan) && r.sagas[plan.request.execution].steps == st.sagas[plan.request.execution].steps
  {
    hide WithoutClaim;
  }

  lemma SendKeepsSteps(env: Env, sys: System, plan: Plan, request: DirectRequest)
    requires Running(sys.store, plan) && request.run == plan.request.run
    ensures Running(Send(env, sys, request).0.store, plan)
    ensures Record(Send(env, sys, request).0, plan).steps == Record(sys, plan).steps
  {
    hide Invoke, Claim, CancelClaim, Owned, Loaded;
    var claimed := Claim(sys.store, request, request.key !in env.closed);
    ClaimKeepsSteps(sys.store, plan, request, request.key !in env.closed);
    CancelKeepsSteps(claimed.0, plan, request);
  }

  lemma CloseAdvances(sys: System, plan: Plan, step: Step, response: Response)
    requires Running(sys.store, plan) && |Record(sys, plan).steps| == Ordinal(step)
    ensures var r := CloseStep(sys, plan, step, response);
            !r.1.Raised? ==> |Record(r.0, plan).steps| == Ordinal(step) + (if r.1.Done? then 1 else 0)
  {
    hide CloseDispatch, IsPending, HasStep;
  }

  lemma CompleteAddAdvances(sys: System, plan: Plan, step: Step, created: seq<Created>)
    requires Running(sys.store, plan) && |Record(sys, plan).steps| == Ordinal(step)
    ensures var r := CompleteAdd(sys, plan, step, created);
            !r.1.Raised? ==> |Record(r.0, plan).steps| == Ordinal(step) + (if r.1.Done? then 1 else 0)
  {
    hide CloseStep, TypesMatch, IsPending, DistinctRefs, RefsOf, RowsOf;
    var registered := Register(sys.store, plan.request.execution, step, created);
    if registered.1.Ok? {
      CloseAdvances(sys.(store := registered.0), plan, step, Ids(CreatedRefs(created)));
    }
  }

  lemma AddAdvances(env: Env, sys: System, plan: Plan, step: Step)
    requires Running(sys.store, plan) && IsAdd(step) && |Record(sys, plan).steps| == Ordinal(step)
    ensures var r := AddStep(env, sys, plan, step);
            !r.1.Raised? ==> |Record(r.0, plan).steps| == Ordinal(step) + (if r.1.Done? then 1 else 0)
  {
    hide Send, CompleteAdd, Live, OfService;
    var request := HandlerRequest(plan, Live(Record(sys, plan).objects), step);
    if request.Ok? {
      SendKeepsSteps(env, sys, plan, request.value);
      var sent := Send(env, sys, request.value);
      if sent.1.Answered? {
        CompleteAddAdvances(sent.0, plan, step, sent.1.reply.created);
        if step == CampaignAdd && ConsumeAuthority(sent.0.store, plan).1.Ok? {
          CompleteAddAdvances(sent.0.(store := ConsumeAuthority(sent.0.store, plan).0), plan, step, sent.1.reply.created);
        }
      }
    }
  }

  lemma MoveAdvances(env: Env, sys: System, plan: Plan, step: Step)
    requires Running(sys.store, plan) && step in {ModerationSubmit, CampaignLaunch}
    requires |Record(sys, plan).steps| == Ordinal(step)
    ensures var r := if step == ModerationSubmit then SubmitStep(env, sys, plan) else LaunchStep(env, sys, plan);
            !r.1.Raised? ==> |Record(r.0, plan).steps| == Ordinal(step) + (if r.1.Done? then 1 else 0)
  {
    hide Send, CloseStep, Live, OfService, StateAllows, AllIn, StatesOf;
    var request := HandlerRequest(plan, Live(Record(sys, plan).objects), step);
    if request.Ok? {
      SendKeepsSteps(env, sys, plan, request.value);
      var sent := Send(env, sys, request.value);
      if sent.1.Answered? {
        CloseAdvances(sent.0, plan, step, if step == ModerationSubmit then States(StatesOf(sent.1.reply.readback)) else States([On]));
      }
    }
  }

  lemma ReadAdvances(env: Env, sys: System, plan: Plan, step: Step)
    requires Running(sys.store, plan) && !IsWrite(step) && |Record(sys, plan).steps| == Ordinal(step)
    ensures var r := if step == ModerationReadback then ModerationStep(env, sys, plan) else FullReadbackStep(env, sys, plan);
            !r.1.Raised? ==> |Record(r.0, plan).steps| == Ordinal(step) + (if r.1.Done? then 1 else 0)
  {
    hide Invoke, Live, OfService, StateAllows, AllIn, StatesOf, SeenRefs, ReadbackMatches, Owned, CloseDispatch, IsPending, HasStep;
  }

  lemma StepAdvances(env: Env, sys: System, plan: Plan, step: Step)
    requires Running(sys.store, plan)
    ensures var r := RunStep(env, sys, plan, step);
            !r.1.Raised? ==>
              |Record(sys, plan).steps| == Ordinal(step)
              && |Record(r.0, plan).steps| == Ordinal(step) + (if r.1.Done? then 1 else 0)
  {
    hide AddStep, SubmitStep, LaunchStep, ModerationStep, FullReadbackStep, FirstPending;
    if BeginStep(Record(sys, plan), step).Ok? {
      match step
      case ModerationSubmit => MoveAdvances(env, sys, plan, step);
      case CampaignLaunch => MoveAdvances(env, sys, plan, step);
      case ModerationReadback => ReadAdvances(env, sys, plan, step);
      case FullReadback => ReadAdvances(env, sys, plan, step);
      case _ => AddAdvances(env, sys, plan, step);
    }
  }

  // ---------- the step loop ----------

  lemma {:induction false} StepsAreARun(env: Env, c: Config, plan: Plan, next: nat, left: Option<nat>) returns (events: seq<Event>)
    requires Inv(c) && c.at == Working(plan) && next == |Record(c.sys, plan).steps|
    ensures RunEvents(c, events) == AfterStep(RunSteps(env, c.sys, plan, next, left), plan)
    ensures Inv(AfterStep(RunSteps(env, c.sys, plan, next, left), plan))
    ensures var r := RunSteps(env, c.sys, plan, next, left);
            r.1.Failure? || r.1.Unknown? ==> |Record(r.0, plan).steps| < |SAGA_STEPS|
    decreases |SAGA_STEPS| - next
  {
    hide RunEvents, RunStep, StartCompensation, SystemOk, AllOwned, Listed;
    if next >= |SAGA_STEPS| || left == Some(0) {
      events := [];
      RunNothing(c);
    } else {
      var step := SAGA_STEPS[next];
      assert Ordinal(step) == next by { OrdinalOf(next); }
      events := StepIsARun(env, c, plan, step);
      RunInv(c, events);
      StepAdvances(env, c.sys, plan, step);
      var ran := RunStep(env, c.sys, plan, step);
      if ran.1.Done? {
        var d := RunEvents(c, events);
        var more := StepsAreARun(env, d, plan, next + 1, if left.Some? then Some(left.value - 1) else None);
        RunConcat(c, events, more);
        events := events + more;
      }
    }
  }

  lemma OrdinalOf(n: nat)
    requires n < |SAGA_STEPS|
    ensures Ordinal(SAGA_STEPS[n]) == n
  {
  }

  // ---------- execute ----------

  lemma {:induction false} CompensationKeepsSteps(env: Env, sys: System, plan: Plan, todo: seq<ObjectRef>)
    requires Running(sys.store, plan)
    ensures Record(CompensateAll(env, sys, plan, todo).0, plan).steps == Record(sys, plan).steps
    decreases |todo|
  {
    hide CompensateOne;
    if todo != [] {
      OneKeepsSteps(env, sys, plan, todo[0]);
      CompensationKeepsSteps(env, CompensateOne(env, sys, plan, todo[0]).0, plan, todo[1..]);
    }
  }

  lemma OneKeepsSteps(env: Env, sys: System, plan: Plan, ref: ObjectRef)
    requires Running(sys.store, plan)
    ensures Record(CompensateOne(env, sys, plan, ref).0, plan).steps == Record(sys, plan).steps
  {
    hide Send, DeleteAllowed, MarkRows;
    SendKeepsSteps(env, sys, plan, CompensationRequest(plan, ref));
  }

  lemma FailureKeepsSteps(env: Env, sys: System, plan: Plan, detail: string)
    requires Running(sys.store, plan)
    ensures Record(FinishAfterFailure(env, sys, plan, detail), plan).steps == Record(sys, plan).steps
  {
    hide CompensateAll, Live;
    CompensationKeepsSteps(env, sys, plan, Reversed(CreatedRefs(Live(Record(sys, plan).objects))));
  }

  lemma UnresolvedKeepsSteps(sys: System, plan: Plan)
    requires Running(sys.store, plan) && Reconcile(sys, plan).1.Unresolved?
    ensures Record(Reconcile(sys, plan).0, plan).steps == Record(sys, plan).steps
  {
    hide ResolveWith, FirstPending;
    var pending := FirstPending(Record(sys, plan).dispatches);
    if pending.value.request.key in sys.adapter.results {
      ResolveKeepsSteps(sys, plan, pending.value.step, sys.adapter.results[pending.value.request.key]);
    }
  }

  lemma ResolveKeepsSteps(sys: System, plan: Plan, step: Step, reply: Reply)
    requires Running(sys.store, plan)
    ensures var r := ResolveWith(sys, plan, step, reply);
            r.1.Unresolved? ==> Record(r.0, plan).steps == Record(sys, plan).steps
  {
    hide CompleteAdd, CloseStep, CanConsume, AllIn;
  }

  lemma FinishIsARun(c: Config, plan: Plan) returns (events: seq<Event>)
    requires c.at == Working(plan) && Running(c.sys.store, plan)
    ensures RunEvents(c, events).sys == FinishIfComplete(c.sys, plan).0
  {
    hide RunEvents, Settle, DoBegin, DoClaim, DoSend, DoRecover, DoUseAuthority, DoRegister, DoClose, DoReadOnly, DoReadStep, DoAbandon,
         DoDelete, DoMark, DoFinishCompensation, RegisterReservation, RegisterApproval, CancelClaim;
    events := [FinishApplied];
    RunOne(c, FinishApplied);
  }

  /** Starting point of `Continue`: the saga is loaded and its pending dispatch, if any, must be reconciled first. */
  function Entered(sys: System, plan: Plan): Config
    requires Loaded(sys.store, plan)
  {
    Config(sys, if FirstPending(Record(sys, plan).dispatches).None? then Working(plan) else Reconciling(plan, AtStart))
  }

  lemma EntryIsARun(c: Config, plan: Plan) returns (events: seq<Event>)
    requires Inv(c) && Running(c.sys.store, plan) && c == Entered(c.sys, plan)
    ensures RunEvents(c, events) == AfterReconcile(Reconcile(c.sys, plan), plan, AtStart)
  {
    hide RunEvents, SystemOk, ResolveWith, FirstPending, Shaped, Lockstep, RowsKnown, Accounted, Truthful, RepliesFit;
    if c.at.Working? {
      events := [];
      RunNothing(c);
    } else {
      SagaParts(c.sys, plan);
      events := ReconcileIsARun(c, plan, AtStart);
    }
  }

  /** How `Continue` ends when reconciliation cannot resolve an unknown outcome. */
  function Unsettled(sys: System, plan: Plan): System
    requires Loaded(sys.store, plan)
  {
    FinishIfComplete(Settle(sys, plan, UnknownResult, "FAKE_DIRECT_OUTCOME_UNKNOWN"), plan).0
  }

  /** What follows a step loop that ended with an unknown outcome and is not retried at once. */
  lemma UnknownIsARun(c: Config, plan: Plan) returns (events: seq<Event>)
    requires Running(c.sys.store, plan) && Shaped(Record(c.sys, plan)) && |Record(c.sys, plan).steps| < |SAGA_STEPS|
    requires c.at == Reconciling(plan, AfterUnknown)
    ensures var second := Reconcile(c.sys, plan);
            && (second.1.Resolved? ==> RunEvents(c, events) == Config(second.0, Working(plan)))
            && (second.1.ReconcileRaised? ==> RunEvents(c, events).sys == second.0)
            && (second.1.Unresolved? ==> RunEvents(c, events).sys == Unsettled(second.0, plan))
  {
    hide RunEvents, SystemOk, Reconcile, FirstPending, Shaped, Lockstep, RowsKnown, Accounted, Truthful, RepliesFit,
         DoBegin, DoClaim, DoSend, DoRecover, DoUseAuthority, DoRegister, DoClose, DoReadOnly, DoReadStep, DoFinishApplied,
         DoDelete, DoMark, DoFinishCompensation, RegisterReservation, RegisterApproval, CancelClaim;
    events := ReconcileIsARun(c, plan, AfterUnknown);
    if Reconcile(c.sys, plan).1.Unresolved? {
      UnresolvedKeepsSteps(c.sys, plan);
      RunThen(c, events, Abandon);
      events := events + [Abandon];
    }
  }

  /** A step loop that failed definitely: compensation, and no APPLIED afterwards. */
  lemma FailureIsARun(env: Env, c: Config, plan: Plan, detail: string) returns (events: seq<Event>)
    requires Running(c.sys.store, plan) && c.at == StartCompensation(c.sys, plan, detail)
    requires |Record(c.sys, plan).steps| < |SAGA_STEPS|
    ensures RunEvents(c, events).sys == FinishIfComplete(FinishAfterFailure(env, c.sys, plan, detail), plan).0
  {
    hide RunEvents, FinishAfterFailure, StartCompensation;
    events := CompensationIsARun(env, c, plan, detail);
    FailureKeepsSteps(env, c.sys, plan, detail);
  }

  function Budget(maxSteps: Option<int>): Option<nat>
    requires maxSteps.Some? ==> maxSteps.value >= 0
  {
    if maxSteps.Some? then Some(maxSteps.value as nat) else None
  }

  /** The part of `Continue` after a resolved entry; a retried saga is at rest again before `execute` is repeated. */
  lemma LoopIsARun(env: Env, c: Config, plan: Plan, now: int, approver: Principal, maxSteps: Option<int>)
    returns (events: seq<Event>)
    requires Inv(c) && c.at == Working(plan) && (maxSteps.Some? ==> maxSteps.value >= 1)
    ensures var ran := RunSteps(env, c.sys, plan, |Record(c.sys, plan).steps|, Budget(maxSteps));
            match ran.1
            case Raised(_) => RunEvents(c, events).sys == ran.0
            case Failure(detail) => RunEvents(c, events).sys == FinishIfComplete(FinishAfterFailure(env, ran.0, plan, detail), plan).0
            case Done => RunEvents(c, events).sys == FinishIfComplete(ran.0, plan).0
            case Unknown =>
              var second := Reconcile(ran.0, plan);
              if second.1.ReconcileRaised? then RunEvents(c, events).sys == second.0
              else if second.1.Unresolved? then RunEvents(c, events).sys == Unsettled(second.0, plan)
              else if maxSteps.Some? then RunEvents(c, events).sys == FinishIfComplete(second.0, plan).0
              else RunEvents(c, events) == Config(second.0, Idle)
  {
    hide RunEvents, RunSteps, Reconcile, FinishAfterFailure, FinishIfComplete, Unsettled, StartCompensation, SystemOk, AllOwned, Listed,
         Shaped, Lockstep, RowsKnown, Accounted, Truthful, RepliesFit, DoBegin, DoClaim, DoSend, DoRecover, DoUseAuthority, DoRegister,
         DoClose, DoReadOnly, DoReadStep, DoFinishApplied, DoDelete, DoMark, DoFinishCompensation, RegisterReservation, RegisterApproval,
         CancelClaim, DoAbandon;
    events := StepsAreARun(env, c, plan, |Record(c.sys, plan).steps|, Budget(maxSteps));
    var ran := RunSteps(env, c.sys, plan, |Record(c.sys, plan).steps|, Budget(maxSteps));
    var d := AfterStep(ran, plan);
    var more: seq<Event> := [];
    if ran.1.Raised? {
      RunNothing(d);
    } else if ran.1.Failure? {
      more := FailureIsARun(env, d, plan, ran.1.detail);
    } else if ran.1.Done? {
      more := FinishIsARun(d, plan);
    } else {
      SagaParts(d.sys, plan);
      more := UnknownIsARun(d, plan);
      var second := Reconcile(ran.0, plan);
      if second.1.Resolved? {
        if maxSteps.Some? {
          var finish := FinishIsARun(Config(second.0, Working(plan)), plan);
          RunConcat(d, more, finish);
          more := more + finish;
        } else {
          RunThen(d, more, Crash);
          more := more + [Crash];
        }
      }
    }
    RunConcat(c, events, more);
    events := events + more;
  }

  lemma ContinueIsARun(env: Env, c: Config, plan: Plan, now: int, approver: Principal, maxSteps: Option<int>)
    returns (events: seq<Event>)
    requires Inv(c) && Running(c.sys.store, plan) && c == Entered(c.sys, plan)
    ensures RunEvents(c, events).sys == Continue(env, c.sys, plan, now, approver, maxSteps).0
    decreases LossesLeft(env, c.sys), 0
  {
    hide RunEvents, RunSteps, Reconcile, FinishAfterFailure, FinishIfComplete, StartCompensation, Inv;
    events := EntryIsARun(c, plan);
    var first := Reconcile(c.sys, plan);
    if first.1.Resolved? && (maxSteps.None? || maxSteps.value >= 1) {
      RunInv(c, events);
      var d := Config(first.0, Working(plan));
      var loop := LoopIsARun(env, d, plan, now, approver, maxSteps);
      RunConcat(c, events, loop);
      events := events + loop;
      var ran := RunSteps(env, first.0, plan, |Record(first.0, plan).steps|, Budget(maxSteps));
      if ran.1.Unknown? && Reconcile(ran.0, plan).1.Resolved? && maxSteps.None? {
        RunInv(d, loop);
        RetryConsumesLoss(env, c.sys, plan, Budget(maxSteps));
        var again := ExecuteIsARun(env, RunEvents(d, loop), plan, now, approver, None);
        RunConcat(c, events, again);
        events := events + again;
      }
    }
  }

  lemma LoadedIfKeyed(sys: System, plan: Plan)
    requires SystemOk(sys)
    ensures KeyedFor(sys.store, plan)
  {
    hide SagaOk, GrantsBound, SentOnce, Numbered;
    if plan.request.execution in sys.store.sagas {
      assert KeyedAt(sys.store, plan.request.execution);
    }
  }

  /** Every call of `execute` on a reachable system is a run of the saga machine. */
  lemma ExecuteIsARun(env: Env, c: Config, plan: Plan, now: int, approver: Principal, maxSteps: Option<int>)
    returns (events: seq<Event>)
    requires Inv(c) && c.at.Idle?
    ensures KeyedFor(c.sys.store, plan)
    ensures RunEvents(c, events).sys == Execute(env, c.sys, plan, now, approver, maxSteps).0
    decreases LossesLeft(env, c.sys), 1
  {
    hide RunEvents, Continue, StartOrLoad, StartCompensation, SystemOk, ValidDraft, Loaded, FirstPending, DoClaim, DoSend, DoRecover,
         DoUseAuthority, DoRegister, DoClose, DoReadOnly, DoReadStep, DoFinishApplied, DoDelete, DoMark, DoFinishCompensation,
         RegisterReservation, RegisterApproval, CancelClaim, DoAbandon;
    LoadedIfKeyed(c.sys, plan);
    RunNothing(c);
    events := [];
    var started := StartOrLoad(c.sys.store, plan, now, approver);
    if ValidDraft(plan.request.draft) && started.1 == Ok(InFlight) {
      LoadedInFlight(c.sys.store, plan, now, approver);
      events := [Begin(plan, now, approver)];
      RunOne(c, Begin(plan, now, approver));
      RunInv(c, events);
      var d := RunEvents(c, events);
      LoadedIfKeyed(d.sys, plan);
      var rest := ContinueIsARun(env, d, plan, now, approver, maxSteps);
      RunConcat(c, events, rest);
      events := events + rest;
    } else if ValidDraft(plan.request.draft) && started.1.Ok? {
      StartOrLoadStarts(c.sys.store, plan, now, approver);
    }
  }

  /** So a call of `execute` keeps the invariant, whatever environment it meets. */
  lemma {:induction false} ExecuteKeeps(env: Env, sys: System, plan: Plan, now: int, approver: Principal, maxSteps: Option<int>)
    requires SystemOk(sys)
    ensures KeyedFor(sys.store, plan)
    ensures SystemOk(Execute(env, sys, plan, now, approver, maxSteps).0)
  {
    hide SystemOk, RunEvents, Execute, KeyedFor;
    var events := ExecuteIsARun(env, Config(sys, Idle), plan, now, approver, maxSteps);
    RunInv(Config(sys, Idle), events);
  }
}
