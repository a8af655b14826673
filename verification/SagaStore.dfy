/** The durable tables of the campaign saga and the transactions over them. */
module SagaStore {
  import opened Basics
  import opened CampaignTypes

  datatype GrantStatus = Available | Reserved | Used

  datatype Reservation = Reservation(
    status: GrantStatus, account: string, objectType: string, proposal: string, profile: string,
    expires: int, holder: Option<string>)

  datatype Approval = Approval(
    status: GrantStatus, proposal: string, binding: Plan, approver: string, authentication: string,
    expires: int, signed: bool, holder: Option<string>)

  datatype SagaStatus = InFlight | Applied | UnknownResult | Failed | PartiallyApplied | CompensationRequired

  datatype Response =
    | Ids(ids: seq<ObjectRef>)
    | States(states: seq<DirectState>)
    | ReadbackIds(campaigns: seq<ObjectRef>, groups: seq<ObjectRef>, ads: seq<ObjectRef>, keywords: seq<ObjectRef>)

  datatype StepRow = StepRow(step: Step, response: Response)

  datatype DispatchRow = DispatchRow(ordinal: nat, step: Step, request: DirectRequest, completed: bool)

  datatype ObjectRow = ObjectRow(created: Created, step: Step, compensated: bool)

  /** One saga with the rows of the other tables that carry its execution key. */
  datatype SagaRecord = SagaRecord(
    plan: Plan, status: SagaStatus, detail: string,
    steps: seq<StepRow>, dispatches: seq<DispatchRow>, objects: seq<ObjectRow>)

  /** `runs` is the unique index on run identifiers and `index` the primary key of the created objects. */
  datatype Store = Store(
    reservations: map<string, Reservation>,
    approvals: map<string, Approval>,
    sagas: map<string, SagaRecord>,
    runs: map<string, string>,
    index: set<ObjectRef>)

  const EMPTY_STORE := Store(map[], map[], map[], map[], {})

  // ---------- reading rows ----------

  function FirstPending(dispatches: seq<DispatchRow>): Option<DispatchRow> {
    if dispatches == [] then None
    else if !dispatches[0].completed then Some(dispatches[0])
    else FirstPending(dispatches[1..])
  }

  predicate HasDispatch(dispatches: seq<DispatchRow>, step: Step) {
    exists row <- dispatches :: row.step == step
  }

  predicate IsPending(dispatches: seq<DispatchRow>, step: Step) {
    exists row <- dispatches :: row.step == step && !row.completed
  }

  predicate HasStep(steps: seq<StepRow>, step: Step) {
    exists row <- steps :: row.step == step
  }

  predicate HasObjectsOf(objects: seq<ObjectRow>, step: Step) {
    exists row <- objects :: row.step == step
  }

  predicate Owns(objects: seq<ObjectRow>, ref: ObjectRef) {
    exists row <- objects :: row.created.ref == ref && !row.compensated
  }

  /** The rows not yet compensated, in insertion order. */
  function Live(objects: seq<ObjectRow>): seq<Created> {
    if objects == [] then []
    else (if objects[0].compensated then [] else [objects[0].created]) + Live(objects[1..])
  }

  function OfService(created: seq<Created>, service: Service): seq<ObjectRef> {
    if created == [] then []
    else (if created[0].ref.service == service then [created[0].ref] else []) + OfService(created[1..], service)
  }

  function InFlightSaga(st: Store, run: string): Option<string> {
    if run in st.runs && st.runs[run] in st.sagas && st.sagas[st.runs[run]].status == InFlight
    then Some(st.runs[run]) else None
  }

  predicate Owned(st: Store, run: string, ref: ObjectRef) {
    run in st.runs && st.runs[run] in st.sagas && Owns(st.sagas[st.runs[run]].objects, ref)
  }

  // ---------- the operation the stored plan expects ----------

  function ExpectedRequest(record: SagaRecord, step: Step): Result<DirectRequest> {
    var draft := record.plan.request.draft;
    var live := Live(record.objects);
    var campaigns, groups, ads := OfService(live, Campaigns), OfService(live, AdGroups), OfService(live, Ads);
    var run := record.plan.request.run;
    var key := StepKey(record.plan.request.execution, step);
    match step
    case CampaignAdd =>
      Ok(DirectRequest(run, key, Campaigns, Add, CampaignPayload(draft.campaignType, Suspended, draft.terms)))
    case AdGroupAdd =>
      if |campaigns| != 1 then Rejected("DIRECT_OPERATION_PLAN_MISMATCH")
      else Ok(DirectRequest(run, key, AdGroups, Add,
                            GroupPayload(campaigns[0], draft.group.name, draft.group.negativeKeywords)))
    case AdsAdd =>
      if |groups| != 1 then Rejected("DIRECT_OPERATION_PLAN_MISMATCH")
      else Ok(DirectRequest(run, key, Ads, Add, AdsPayload(groups[0], draft.group.ads)))
    case KeywordAdd =>
      if |groups| != 1 then Rejected("DIRECT_OPERATION_PLAN_MISMATCH")
      else Ok(DirectRequest(run, key, Keywords, Add, KeywordPayload(groups[0], draft.group.keyword)))
    case ModerationSubmit =>
      Ok(DirectRequest(run, key, Ads, Moderate, IdsPayload(ads)))
    case CampaignLaunch =>
      if |campaigns| != 1 then Rejected("DIRECT_OPERATION_PLAN_MISMATCH")
      else Ok(DirectRequest(run, key, Campaigns, Resume, IdPayload(campaigns[0])))
    case _ => Rejected("DIRECT_OPERATION_PLAN_MISMATCH")
  }

  function CompensationRequest(plan: Plan, ref: ObjectRef): DirectRequest {
    DirectRequest(plan.request.run, CompensationKey(plan.request.execution, ref), ref.service, Delete, IdPayload(ref))
  }

  // ---------- transactions on one saga's rows ----------

  function BeginStep(record: SagaRecord, step: Step): Result<()> {
    if |record.steps| != Ordinal(step) then Rejected("SAGA_STEP_ORDER_VIOLATION")
    else if FirstPending(record.dispatches).Some? then Rejected("SAGA_STEP_OUTCOME_REQUIRES_RECONCILIATION")
    else Ok(())
  }

  /** `Ok(true)` when the operation was claimed, `Ok(false)` when the saga does not plan a write now. */
  function ClaimRecord(record: SagaRecord, request: DirectRequest, gateOpen: bool): (SagaRecord, Result<bool>) {
    if request.key.CompensationKey? then
      if request.verb != Delete
         || request.payload != IdPayload(request.key.ref)
         || request.key.execution != record.plan.request.execution
         || request.service != request.key.ref.service
         || !Owns(record.objects, request.key.ref)
      then (record, Rejected("DIRECT_OPERATION_PLAN_MISMATCH"))
      else if !gateOpen then (record, Rejected("KILL_SWITCH_ACTIVE"))
      else (record, Ok(true))
    else if |record.steps| >= |SAGA_STEPS| then (record, Rejected("DIRECT_OPERATION_PLAN_MISMATCH"))
    else
      var step := SAGA_STEPS[|record.steps|];
      if !IsWrite(step) then (record, Ok(false))
      else if ExpectedRequest(record, step) != Ok(request) then (record, Rejected("DIRECT_OPERATION_PLAN_MISMATCH"))
      else if HasDispatch(record.dispatches, step) then
        (record, Rejected("SAGA_STEP_OUTCOME_REQUIRES_RECONCILIATION"))
      else if !gateOpen then (record, Rejected("KILL_SWITCH_ACTIVE"))
      else
        (record.(dispatches := record.dispatches + [DispatchRow(|record.steps|, step, request, false)]), Ok(true))
  }

  predicate Cancellable(record: SagaRecord, request: DirectRequest, row: DispatchRow) {
    row.request == request && !row.completed && !HasObjectsOf(record.objects, row.step)
  }

  function WithoutClaim(record: SagaRecord, request: DirectRequest, dispatches: seq<DispatchRow>): seq<DispatchRow> {
    if dispatches == [] then []
    else
      (if Cancellable(record, request, dispatches[0]) then [] else [dispatches[0]])
      + WithoutClaim(record, request, dispatches[1..])
  }

  function CancelRecord(record: SagaRecord, request: DirectRequest): SagaRecord {
    record.(dispatches := WithoutClaim(record, request, record.dispatches))
  }

  function CloseDispatch(dispatches: seq<DispatchRow>, step: Step): seq<DispatchRow> {
    seq(|dispatches|, i requires 0 <= i < |dispatches| =>
      if dispatches[i].step == step then dispatches[i].(completed := true) else dispatches[i])
  }

  function CompleteRecord(record: SagaRecord, step: Step, response: Response): Result<SagaRecord> {
    if |record.steps| != Ordinal(step) then
      if HasStep(record.steps, step) then Ok(record) else Rejected("SAGA_STEP_ORDER_VIOLATION")
    else if IsWrite(step) && !IsPending(record.dispatches, step) then Rejected("SAGA_STEP_WAS_NOT_DISPATCHED")
    else
      Ok(record.(steps := record.steps + [StepRow(step, response)],
                 dispatches := if IsWrite(step) then CloseDispatch(record.dispatches, step) else record.dispatches))
  }

  function RowsOf(created: seq<Created>, step: Step): seq<ObjectRow> {
    seq(|created|, i requires 0 <= i < |created| => ObjectRow(created[i], step, false))
  }

  function RefsOf(created: seq<Created>): set<ObjectRef> {
    set item | item in created :: item.ref
  }

  predicate DistinctRefs(created: seq<Created>) {
    forall i, j | 0 <= i < j < |created| :: created[i].ref != created[j].ref
  }

  function RegisterRecord(record: SagaRecord, index: set<ObjectRef>, step: Step, created: seq<Created>)
    : Result<SagaRecord>
  {
    if created == [] then Rejected("CREATED_OBJECT_SET_EMPTY")
    else if !IsPending(record.dispatches, step) then Rejected("SAGA_STEP_WAS_NOT_DISPATCHED")
    else if !DistinctRefs(created) || RefsOf(created) * index != {} then
      Rejected("UNIQUE constraint failed: campaign_created_objects")
    else Ok(record.(objects := record.objects + RowsOf(created, step)))
  }

  function MarkRows(objects: seq<ObjectRow>, ref: ObjectRef): seq<ObjectRow> {
    seq(|objects|, i requires 0 <= i < |objects| =>
      if objects[i].created.ref == ref then objects[i].(compensated := true) else objects[i])
  }

  // ---------- transactions on the whole store ----------

  function ReservationProblem(reservation: Reservation, plan: Plan, now: int): Option<string> {
    var request := plan.request;
    if reservation.status != Available then Some("CREATION_RESERVATION_ALREADY_USED")
    else if reservation.account != request.account then Some("CREATION_RESERVATION_SCOPE_MISMATCH")
    else if reservation.objectType != request.draft.campaignType then Some("CREATION_RESERVATION_TYPE_MISMATCH")
    else if reservation.proposal != request.proposal then Some("CREATION_RESERVATION_PROPOSAL_MISMATCH")
    else if reservation.profile != request.profile then Some("CREATION_RESERVATION_CREDENTIAL_MISMATCH")
    else if reservation.expires <= now then Some("CREATION_RESERVATION_EXPIRED")
    else None
  }

  datatype Principal = Principal(identity: string, authentication: string)

  predicate ApprovalReservable(approval: Approval, plan: Plan, now: int, approver: Principal) {
    && approval.status == Available
    && approval.proposal == plan.request.proposal
    && approval.binding == Binding(plan)
    && approval.approver == approver.identity
    && approval.authentication == approver.authentication
    && now < approval.expires
    && approval.signed
  }

  function StartOrLoad(st: Store, plan: Plan, now: int, approver: Principal): (Store, Result<SagaStatus>) {
    var request := plan.request;
    if request.execution in st.sagas then
      if st.sagas[request.execution].plan != plan then (st, Rejected("NEW_PROPOSAL_AND_APPROVAL_REQUIRED"))
      else (st, Ok(st.sagas[request.execution].status))
    else if request.reservation !in st.reservations then (st, Rejected("CREATION_RESERVATION_NOT_FOUND"))
    else
      var problem := ReservationProblem(st.reservations[request.reservation], plan, now);
      if problem.Some? then (st, Rejected(problem.value))
      else if request.approval !in st.approvals then (st, Rejected("CAMPAIGN_APPROVAL_NOT_FOUND"))
      else if !ApprovalReservable(st.approvals[request.approval], plan, now, approver) then
        (st, Rejected("CAMPAIGN_APPROVAL_NOT_AUTHORIZED"))
      else if request.run in st.runs then (st, Rejected("UNIQUE constraint failed: campaign_sagas.run_id"))
      else
        (st.(reservations := st.reservations[request.reservation :=
               st.reservations[request.reservation].(status := Reserved, holder := Some(request.execution))],
             approvals := st.approvals[request.approval :=
               st.approvals[request.approval].(status := Reserved, holder := Some(request.execution))],
             sagas := st.sagas[request.execution := SagaRecord(plan, InFlight, "", [], [], [])],
             runs := st.runs[request.run := request.execution]),
         Ok(InFlight))
  }

  /** Both single-use authorities are consumed together, or neither is. */
  predicate CanConsume(st: Store, plan: Plan) {
    var request := plan.request;
    && request.reservation in st.reservations
    && st.reservations[request.reservation].status == Reserved
    && st.reservations[request.reservation].holder == Some(request.execution)
    && request.approval in st.approvals
    && st.approvals[request.approval].status == Reserved
    && st.approvals[request.approval].holder == Some(request.execution)
  }

  function ConsumeAuthority(st: Store, plan: Plan): (Store, Result<()>) {
    if !CanConsume(st, plan) then (st, Rejected("FIRST_WRITE_AUTHORITY_USE_FAILED"))
    else
      var request := plan.request;
      (st.(reservations := st.reservations[request.reservation := st.reservations[request.reservation].(status := Used)],
           approvals := st.approvals[request.approval := st.approvals[request.approval].(status := Used)]),
       Ok(()))
  }

  function Put(st: Store, execution: string, record: SagaRecord): Store {
    st.(sagas := st.sagas[execution := record])
  }

  function Claim(st: Store, request: DirectRequest, gateOpen: bool): (Store, Result<bool>) {
    var saga := InFlightSaga(st, request.run);
    if saga.None? then (st, Ok(false))
    else
      var claimed := ClaimRecord(st.sagas[saga.value], request, gateOpen);
      (Put(st, saga.value, claimed.0), claimed.1)
  }

  function CancelClaim(st: Store, request: DirectRequest): Store {
    if request.run in st.runs && st.runs[request.run] in st.sagas
    then Put(st, st.runs[request.run], CancelRecord(st.sagas[st.runs[request.run]], request))
    else st
  }

  function Register(st: Store, execution: string, step: Step, created: seq<Created>): (Store, Result<()>)
    requires execution in st.sagas
  {
    var registered := RegisterRecord(st.sagas[execution], st.index, step, created);
    if registered.Ok? then (Put(st, execution, registered.value).(index := st.index + RefsOf(created)), Ok(()))
    else (st, Rejected(registered.reason))
  }

  function Complete(st: Store, execution: string, step: Step, response: Response): (Store, Result<()>)
    requires execution in st.sagas
  {
    var completed := CompleteRecord(st.sagas[execution], step, response);
    if completed.Ok? then (Put(st, execution, completed.value), Ok(())) else (st, Rejected(completed.reason))
  }

  function Finish(st: Store, execution: string, status: SagaStatus, detail: string): Store
    requires execution in st.sagas
  {
    Put(st, execution, st.sagas[execution].(status := status, detail := detail))
  }

  function MarkCompensated(st: Store, execution: string, ref: ObjectRef): Store
    requires execution in st.sagas
  {
    Put(st, execution, st.sagas[execution].(objects := MarkRows(st.sagas[execution].objects, ref)))
  }

  function RegisterReservation(st: Store, id: string, reservation: Reservation): (Store, Result<()>) {
    if id == "" || reservation.status != Available || reservation.account == "" || reservation.proposal == ""
       || reservation.profile == ""
    then (st, Rejected("CREATION_RESERVATION_INVALID"))
    else if id in st.reservations then
      if st.reservations[id].(holder := None) == reservation.(holder := None) then (st, Ok(()))
      else (st, Rejected("IMMUTABLE_RESERVATION_CONFLICT"))
    else (st.(reservations := st.reservations[id := reservation.(holder := None)]), Ok(()))
  }

  function RegisterApproval(st: Store, id: string, approval: Approval): (Store, Result<()>) {
    if id in st.approvals then
      if st.approvals[id].(status := Available, holder := None) == approval.(status := Available, holder := None)
      then (st, Ok(()))
      else (st, Rejected("IMMUTABLE_APPROVAL_CONFLICT"))
    else (st.(approvals := st.approvals[id := approval.(status := Available, holder := None)]), Ok(()))
  }

  // ---------- the store object ----------

  class CampaignSagaStore {
    var reservations: map<string, Reservation>
    var approvals: map<string, Approval>
    var sagas: map<string, SagaRecord>
    var runs: map<string, string>
    var index: set<ObjectRef>

    constructor ()
      ensures View() == EMPTY_STORE
    {
      reservations, approvals, sagas, runs, index := map[], map[], map[], map[], {};
    }

    function View(): Store
      reads this
    {
      Store(reservations, approvals, sagas, runs, index)
    }

    method RegisterCreationReservation(id: string, reservation: Reservation) returns (result: Result<()>)
      modifies this`reservations
      ensures (View(), result) == RegisterReservation(old(View()), id, reservation)
    {
      if id == "" || reservation.status != Available || reservation.account == "" || reservation.proposal == ""
         || reservation.profile == ""
      {
        return Rejected("CREATION_RESERVATION_INVALID");
      }
      if id in reservations {
        if reservations[id].(holder := None) != reservation.(holder := None) {
          return Rejected("IMMUTABLE_RESERVATION_CONFLICT");
        }
        return Ok(());
      }
      reservations := reservations[id := reservation.(holder := None)];
      result := Ok(());
    }

    method RegisterCampaignApproval(id: string, approval: Approval) returns (result: Result<()>)
      modifies this`approvals
      ensures (View(), result) == RegisterApproval(old(View()), id, approval)
    {
      var incoming := approval.(status := Available, holder := None);
      if id in approvals {
        if approvals[id].(status := Available, holder := None) != incoming {
          return Rejected("IMMUTABLE_APPROVAL_CONFLICT");
        }
        return Ok(());
      }
      approvals := approvals[id := incoming];
      result := Ok(());
    }

    /** One transaction: the approval, the reservation and the saga row are written together. */
    method StartOrLoadSaga(plan: Plan, now: int, approver: Principal) returns (result: Result<SagaStatus>)
      modifies this
      ensures (View(), result) == StartOrLoad(old(View()), plan, now, approver)
    {
      var request := plan.request;
      if request.execution in sagas {
        if sagas[request.execution].plan != plan {
          return Rejected("NEW_PROPOSAL_AND_APPROVAL_REQUIRED");
        }
        return Ok(sagas[request.execution].status);
      }
      if request.reservation !in reservations {
        return Rejected("CREATION_RESERVATION_NOT_FOUND");
      }
      var problem := ReservationProblem(reservations[request.reservation], plan, now);
      if problem.Some? {
        return Rejected(problem.value);
      }
      if request.approval !in approvals {
        return Rejected("CAMPAIGN_APPROVAL_NOT_FOUND");
      }
      if !ApprovalReservable(approvals[request.approval], plan, now, approver) {
        return Rejected("CAMPAIGN_APPROVAL_NOT_AUTHORIZED");
      }
      if request.run in runs {
        return Rejected("UNIQUE constraint failed: campaign_sagas.run_id");
      }
      var approval := approvals[request.approval].(status := Reserved, holder := Some(request.execution));
      approvals := approvals[request.approval := approval];
      var reservation := reservations[request.reservation].(status := Reserved, holder := Some(request.execution));
      reservations := reservations[request.reservation := reservation];
      sagas := sagas[request.execution := SagaRecord(plan, InFlight, "", [], [], [])];
      runs := runs[request.run := request.execution];
      result := Ok(InFlight);
    }

    method ClaimDirectOperation(request: DirectRequest, gateOpen: bool) returns (result: Result<bool>)
      modifies this`sagas
      ensures (View(), result) == Claim(old(View()), request, gateOpen)
    {
      var saga := InFlightSaga(View(), request.run);
      if saga.None? {
        return Ok(false);
      }
      var record := sagas[saga.value];
      assert sagas == sagas[saga.value := record];
      if request.key.CompensationKey? {
        if request.verb != Delete
           || request.payload != IdPayload(request.key.ref)
           || request.key.execution != record.plan.request.execution
           || request.service != request.key.ref.service
           || !Owns(record.objects, request.key.ref)
        {
          return Rejected("DIRECT_OPERATION_PLAN_MISMATCH");
        }
        return if gateOpen then Ok(true) else Rejected("KILL_SWITCH_ACTIVE");
      }
      if |record.steps| >= |SAGA_STEPS| {
        return Rejected("DIRECT_OPERATION_PLAN_MISMATCH");
      }
      var step := SAGA_STEPS[|record.steps|];
      if !IsWrite(step) {
        return Ok(false);
      }
      if ExpectedRequest(record, step) != Ok(request) {
        return Rejected("DIRECT_OPERATION_PLAN_MISMATCH");
      }
      if HasDispatch(record.dispatches, step) {
        return Rejected("SAGA_STEP_OUTCOME_REQUIRES_RECONCILIATION");
      }
      if !gateOpen {
        return Rejected("KILL_SWITCH_ACTIVE");
      }
      var row := DispatchRow(|record.steps|, step, request, false);
      sagas := sagas[saga.value := record.(dispatches := record.dispatches + [row])];
      result := Ok(true);
    }

    method CancelDirectOperationClaim(request: DirectRequest)
      modifies this`sagas
      ensures View() == CancelClaim(old(View()), request)
    {
      if request.run in runs && runs[request.run] in sagas {
        var record := sagas[runs[request.run]];
        sagas := sagas[runs[request.run] := record.(dispatches := WithoutClaim(record, request, record.dispatches))];
      }
    }

    method ConsumeFirstWriteAuthority(plan: Plan) returns (result: Result<()>)
      modifies this`reservations, this`approvals
      ensures (View(), result) == ConsumeAuthority(old(View()), plan)
    {
      var request := plan.request;
      if !CanConsume(View(), plan) {
        return Rejected("FIRST_WRITE_AUTHORITY_USE_FAILED");
      }
      reservations := reservations[request.reservation := reservations[request.reservation].(status := Used)];
      approvals := approvals[request.approval := approvals[request.approval].(status := Used)];
      result := Ok(());
    }

    method RegisterDispatchedObjects(execution: string, step: Step, created: seq<Created>) returns (result: Result<()>)
      requires execution in sagas
      modifies this`sagas, this`index
      ensures (View(), result) == Register(old(View()), execution, step, created)
    {
      var record := sagas[execution];
      if created == [] {
        return Rejected("CREATED_OBJECT_SET_EMPTY");
      }
      if !IsPending(record.dispatches, step) {
        return Rejected("SAGA_STEP_WAS_NOT_DISPATCHED");
      }
      if !DistinctRefs(created) || RefsOf(created) * index != {} {
        return Rejected("UNIQUE constraint failed: campaign_created_objects");
      }
      sagas := sagas[execution := record.(objects := record.objects + RowsOf(created, step))];
      index := index + RefsOf(created);
      result := Ok(());
    }

    method CompleteStep(execution: string, step: Step, response: Response) returns (result: Result<()>)
      requires execution in sagas
      modifies this`sagas
      ensures (View(), result) == Complete(old(View()), execution, step, response)
    {
      var record := sagas[execution];
      assert sagas == sagas[execution := record];
      if |record.steps| != Ordinal(step) {
        if HasStep(record.steps, step) {
          return Ok(());
        }
        return Rejected("SAGA_STEP_ORDER_VIOLATION");
      }
      record := record.(steps := record.steps + [StepRow(step, response)]);
      if IsWrite(step) {
        if !IsPending(record.dispatches, step) {
          return Rejected("SAGA_STEP_WAS_NOT_DISPATCHED");
        }
        record := record.(dispatches := CloseDispatch(record.dispatches, step));
      }
      sagas := sagas[execution := record];
      result := Ok(());
    }

    method FinishSaga(execution: string, status: SagaStatus, detail: string)
      requires execution in sagas
      modifies this`sagas
      ensures View() == Finish(old(View()), execution, status, detail)
    {
      sagas := sagas[execution := sagas[execution].(status := status, detail := detail)];
    }

    method MarkObjectCompensated(execution: string, ref: ObjectRef)
      requires execution in sagas
      modifies this`sagas
      ensures View() == MarkCompensated(old(View()), execution, ref)
    {
      sagas := sagas[execution := sagas[execution].(objects := MarkRows(sagas[execution].objects, ref))];
    }
  }
}
