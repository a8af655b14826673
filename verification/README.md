# Durable write protocols of MOX-ADV

MOX-ADV guards every advertising write with durable transactions: claim, commit, send, read back, settle, compensate.
This project models those protocols and proves what they keep when processes crash, responses are lost, operators
interfere and several executors run at once. A transaction is one atomic step; the tables are maps and sequences in class
fields; the outside world is a separate object that survives crashes. Classes hold the state and are proved equal to
specification functions; the theorems are about those functions and about machines whose events are single commits,
single adapter calls and crashes. Each service is proved to be a run of its machine.

- **Campaign saga.** `CampaignTypes`, `DirectAdapter`, `SagaStore`, `SagaService` and `CampaignLifecycle` are the data, the
  adapter that is idempotent by operation key, the tables, the service and the objects. `SagaMachine` is the service that
  may stop anywhere; `SagaSafety`, `SagaInvariant`, `SagaEvents`, `SagaWrites` and `SagaRuns` carry its invariant through
  every event; `SagaTheorems` and `SagaCompensation` state what follows. `SagaGrants`, `SagaGates` and `SagaPublished` say
  exactly when a saga starts, writes and completes, and what then holds in every run. `SagaProgress`, `SagaProgressRuns`
  and `SagaForward` follow how compensation and the steps meet; `SagaWedges` and `SagaWedgeRuns` say when a saga does not
  carry on.
  `SagaRefinement` proves the service a run of the machine. `SagaTracks`, `SagaCalm` and `SagaLostResponses` prove lost
  responses and chunked calls invisible.
- **Execution ledger.** `Commands` is the exact target arithmetic, `ExecutionLedger` the transactions shared by the
  approval path and the mandate path, `ControlState` and `ExecutionServices` the objects. `KillNames`, `ApprovalBinding`,
  `MandateCharges` and `ServiceAnswers` say exactly when each is granted, what it is bound to, and what is answered.
  `Dispatch` interleaves any number of executors, revokers and operators; `DispatchSafety`, `MandateQuotas`, `KillSwitch`
  and `SwitchOperators` state what holds under every interleaving. `Recovery` follows one executor with crashes, `ExecutionRuns` proves the services runs of
  it, and `LateCalls` says when several executors break it.
- **Goal lifecycle, audit, polling, quiet window, model cost.** `GoalStore`, `GoalGrants`, `GoalLedger`, `GoalCleanup`,
  `AuditJournal`, `PollLease`, `WriteWindow` and `ModelCost`.

Times are integers in microseconds; money is an integer or a real. Clock reads, principals, generated identifiers and
faults are parameters. One executor at a time serves a saga, with crashes: the connector cancels a matching pending claim
after any failed authorization, so two live executors remove each other's claims (`SagaWedges.SecondExecutorCancelsClaim`).
The saga machine starts from a store without sagas and grants and an adapter that has been called by nobody.

Some properties one would expect are false of the code. Each is shown by a run or an input, with its exact condition:

- two kill-switch operators of one scope that overlap leave an active row without its signal, and only overlaps do
  (`SwitchOperators.OverlapDiverges`, `SwitchOperators.StepStaysBacked`);
- with several executors a recorded FAILED may become false (`LateCalls.SecondExecutorMayRecordTooEarly`), exactly while
  somebody on the way to the call may still pass (`LateCalls.LateCallWhen`);
- a relative step is undone by the opposite step only for some small values (`Commands.TenPercentIsUndone`,
  `Commands.UpIsUndoneWhen`), so a numeric rollback is an exact command only then (`Commands.NumericRollbackIsExactWhen`);
- goal cleanup leaves exactly the publications that the store never recorded (`GoalCleanup.UnrecordedPublicationStays`,
  `GoalCleanup.StoppedBeforeRecording`);
- a failed saga is undone completely only when every object is in a deletable state (`SagaCompensation.UndoneWhenDeletable`),
  which a launched campaign is not (`SagaCompensation.LaunchedCampaignStays`);
- compensation that was interrupted does not keep a saga from going forward (`SagaForward.LaunchesAfterDelete`): exactly
  the moderation readback and the launch can still complete (`SagaForward.ForwardAfterDelete`), and it is never APPLIED
  (`SagaForward.AppliedIsWhole`);
- a saga can stop for good while it is IN_FLIGHT: exactly when reconciliation cannot register a remembered answer
  (`SagaWedges.PendingStuckWhen`, `SagaForward.PendingStuckInRuns`) or the next step is refused
  (`SagaWedges.RestStuckWhen`, `SagaForward.EarlyStuckWhen`). Runs from an empty store lead there
  (`SagaWedgeRuns.ReachesRegistered`, `SagaWedgeRuns.ReachesWrongType`, `SagaWedgeRuns.ReachesRefusedModeration`);
- a signal committed inside or after the last check of an executor comes too late for that call
  (`KillSwitch.PastStillCalls`), and only for such calls (`KillSwitch.NothingSentAgainstSignal`);
- polls may come closer than the interval when the clock steps back (`PollLease.SteppingBackBreaksSpacing`), exactly by more
  than the claim came late (`PollLease.PollsAreSpacedWhen`).

`dafny verify dfyconfig.toml` checks the whole project. Lemmas about sequences carry `{:induction false}`: their proofs
are written out.

## Model

| member | source | states |
|---|---|---|
| SagaTheorems.ExactlyOnceCreation | src/mox_adv/campaign_lifecycle.py:1028-1116 | For one executor that may crash and restart between any two commits or adapter calls: every write-step key reaches the adapter at most once in the whole run, so a saga ever creates at most one campaign, one ad group, two ads and one keyword, and every object in the adapter was there before or belongs to a stored saga |
| SagaTheorems.CompensationLosesNothing | src/mox_adv/campaign_lifecycle.py:1897-1932 | After any run: while the adapter holds an object created for a saga, that saga is neither FAILED nor PARTIALLY_APPLIED, and when it is COMPENSATION_REQUIRED an uncompensated row names the object, also when the failing step created objects of the wrong type |
| SagaTheorems.LedgerInvariant | src/mox_adv/campaign_lifecycle.py:770-834 | On every reachable state: completed steps are a prefix of the eight steps; a step has a dispatch row exactly when it is a write step that is completed or is the pending one, and a pending row is the next step; APPLIED only with all eight steps; the reservation and the approval of the saga stand together and are used by the first completed step |
| SagaGrants.StartsWhen | src/mox_adv/campaign_lifecycle.py:654-724 | A new execution starts if and only if its run is new, an available unexpired reservation has its account, object type, proposal and profile, and an available unexpired signed approval of this approver is of its proposal and bound to every field of its plan but the approval's identifier; then both are held for it, and otherwise nothing changes. A known execution is loaded for the same plan only |
| SagaGrants.SagasAreGranted | src/mox_adv/control_state.py:193-240 | In every run every saga holds such an approval and such a reservation, and no other saga holds either |
| SagaGrants.ReservationWrittenOnce | src/mox_adv/campaign_lifecycle.py:568-621 | Registering a reservation: the exact condition, and what is stored |
| SagaGrants.ApprovalWrittenOnce | src/mox_adv/campaign_lifecycle.py:623-652 | Registering an approval: the exact condition, and what is stored |
| SagaGates.StepCallsWhen | src/mox_adv/direct_management.py:506-595 | The next write of a saga with nothing pending: behind a gate that is shut before or after the claim, or when it is refused, nothing changes; otherwise the adapter is called once with the built request |
| SagaGates.ForeignIsRefused | src/mox_adv/direct_management.py:697-711 | A change, delete or read that names an object the run does not own is refused before anything happens |
| SagaGates.OwnedWhen | src/mox_adv/direct_management.py:697-711 | An object is owned by a run exactly when its saga has an uncompensated row of it |
| SagaGates.StepClaimedWhen | src/mox_adv/campaign_lifecycle.py:1028-1116 | A step is claimed if and only if it is the next one, writes, is the planned request, was not claimed before, and the gate is open |
| SagaGates.DeleteClaimedWhen | src/mox_adv/campaign_lifecycle.py:1028-1116 | A compensation is claimed if and only if it deletes exactly an object with an uncompensated row of this saga, and the gate is open |
| SagaGates.ClaimsInFlightOnly | src/mox_adv/campaign_lifecycle.py:1028-1116 | Only a saga in flight claims, and only its own row is written |
| SagaGates.ClaimCancelledWhen | src/mox_adv/campaign_lifecycle.py:477-500 | A claim is taken back if and only if it is of this very request, open, and nothing of its step is registered |
| SagaGates.StepBegunWhen | src/mox_adv/campaign_lifecycle.py:770-834 | A step is begun if and only if it is the next one and no dispatch is open |
| SagaGates.StepClosedWhen | src/mox_adv/campaign_lifecycle.py:770-834 | Closing a step: the exact condition, and the rows it leaves |
| SagaGates.RegistersWhen | src/mox_adv/campaign_lifecycle.py:862-893 | Objects are registered if and only if their step is dispatched and they are some, different and new |
| SagaGates.DeletableWhen | src/mox_adv/direct_management.py:259-280 | The states an owned object may be deleted in, by kind |
| SagaGates.AddCompletesWhen | src/mox_adv/campaign_lifecycle.py:1573-1588 | An answered add step completes if and only if its objects are new, different and of the planned kinds and types; of other types they are registered all the same and the step fails |
| SagaGates.ReconcilesWhen | src/mox_adv/campaign_lifecycle.py:1397-1511 | Reconciling a pending step completes it if and only if the remembered reply confirms it; what happens to the saga otherwise |
| SagaGates.ConsumesGrantsWhen | src/mox_adv/campaign_lifecycle.py:836-860 | Both grants are used when both are reserved for this saga, or neither is |
| SagaTheorems.AuthorityOnlyMovesForward | src/mox_adv/campaign_lifecycle.py:836-860 | Over any run from an invariant state a reservation or approval only moves AVAILABLE, RESERVED, USED, and once bound to a saga never changes to another |
| SagaRuns.RunInv | src/mox_adv/campaign_lifecycle.py:1338-1395 | The whole saga invariant (store, grants, adapter memory, service position) is kept by every sequence of events, crashes included |
| SagaRuns.StepInv | src/mox_adv/campaign_lifecycle.py:1540-1571 | Each single commit, adapter call, crash, refusal or state drift keeps the saga invariant |
| SagaLostResponses.LostResponsesAreInvisible | src/mox_adv/campaign_lifecycle.py:1338-1511 | For a new saga and any sequence of calls in which adapter calls lose their responses after taking effect, and which may stop after any positive number of steps: the saga is IN_FLIGHT or APPLIED; a call without a step budget leads to APPLIED, and so do any twelve calls; and once APPLIED the whole store and the adapter objects, counters and remembered results equal those of one uninterrupted run that lost nothing |
| SagaLostResponses.ChunkingIsTransparent | src/mox_adv/campaign_lifecycle.py:1364-1395 | Any fault-free sequence of calls with positive `max_steps` leaves the saga APPLIED if and only if the budgets sum to at least eight, then in the state of one uninterrupted run; before that it is IN_FLIGHT with exactly as many completed steps as the budgets sum to |
| SagaLostResponses.CalmRunApplies | src/mox_adv/campaign_lifecycle.py:1364-1395 | The uninterrupted fault-free run of a new saga ends APPLIED with all eight steps, created-object rows for exactly the five planned objects, and those objects in the adapter with the contents and states the draft asks for |
| SagaLostResponses.ServedTracks | src/mox_adv/campaign_lifecycle.py:1397-1511 | From any resting saga on the way to the calm end, any lossy or chunked calls arrive there or stay on the way with at least one less to go for each call, where what is left is the open steps and the reads whose response can still be lost |
| SagaLostResponses.ChunksAdd | src/mox_adv/campaign_lifecycle.py:1364-1395 | From any such saga fault-free budgets add up exactly: it arrives if and only if they cover the open steps |
| SagaTracks.StepFollows | src/mox_adv/direct_management.py:837-910 | A step in which a response may be lost is done in the state the calm step leaves, or its outcome is unknown and reconciliation reaches that state, or, only for a read, the state before the step |
| SagaTracks.ReadsSettled | src/mox_adv/campaign_lifecycle.py:1719-1803 | After the add steps the four reads a saga makes are those of its end, so that each can lose its response at most once |
| SagaTracks.ExecuteTracks | src/mox_adv/campaign_lifecycle.py:1338-1395 | One call from a saga on track arrives at the calm end, without losses only with a sufficient budget, or returns on track with exactly its budget used or a response lost, and with less left either way |
| SagaCalm.HandlerMatchesPlan | src/mox_adv/campaign_lifecycle.py:1118-1199 | On any rows: whenever a handler builds an operation it is the one derived from the stored plan; whenever one can be derived the handler builds it, except a moderation of no ads, which `SagaForward.NextWriteIsPlanned` excludes in runs |
| SagaCalm.HealthyCompletes | src/mox_adv/campaign_lifecycle.py:1590-1803 | From any healthy intermediate point the fault-free remaining steps all complete, and the readback comparison with the draft succeeds |
| SagaCompensation.OneDelete | src/mox_adv/campaign_lifecycle.py:1934-1957 | Compensating one object calls the adapter exactly when the delete is allowed, its gates are open and no earlier one is remembered; it succeeds exactly when that delete is remembered or answered, marks this object only, and changes nothing for any other |
| SagaCompensation.DeletesExactly | src/mox_adv/campaign_lifecycle.py:1906-1930 | Compensating a list of different objects calls, in list order and once each, for exactly the objects whose delete is allowed and new at the start; the failure count is exactly the number of objects not undone |
| SagaCompensation.CompensationRunsBackwards | src/mox_adv/campaign_lifecycle.py:921-943 | On every reachable saga the rows name different objects; after a definite failure the calls made are, in reverse creation order, one delete for each uncompensated object whose delete is allowed and new, and no other |
| SagaCompensation.SentKeepsOrder | src/mox_adv/campaign_lifecycle.py:1906-1930 | The objects called for keep the order of the list |
| SagaCompensation.CompensationOutcome | src/mox_adv/campaign_lifecycle.py:1897-1932 | A failed saga ends FAILED when nothing was live, PARTIALLY_APPLIED if and only if every live object was undone, and then nothing of it is in the adapter, COMPENSATION_REQUIRED otherwise, with exactly the others still owned |
| SagaCompensation.UndoneWhenDeletable | src/mox_adv/direct_management.py:259-280 | With open gates and no failing delete a failed saga is undone completely if and only if every live object is in a deletable state at the start; otherwise exactly the others stay |
| SagaCompensation.LaunchedCampaignStays | src/mox_adv/direct_management.py:259-280 | A launched campaign may not be deleted, so a saga that fails after its launch ends COMPENSATION_REQUIRED and still owns it |
| SagaCompensation.FailedStepIsOwned | src/mox_adv/campaign_lifecycle.py:1573-1588 | When a step fails definitely every object of the saga that stands has an uncompensated row, so the outcomes above apply |
| SagaForward.NextWriteIsPlanned | src/mox_adv/campaign_lifecycle.py:1118-1199 | In every run, up to the submission of the ads, the next write of a saga with nothing pending can be built and is the operation derived from the stored plan: no lookup among the created objects fails, and moderation is never asked for no ads |
| SagaPublished.ReadbackDoneWhen | src/mox_adv/campaign_lifecycle.py:1764-1873 | The last step completes if and only if none of its four reads is refused or loses its response and the live objects are, field by field, the campaign of the draft: type, state and terms of the campaign; parent, name and negatives of the group; every field of each variant's ad; the keyword. When all can be read and something differs, compensation begins |
| SagaPublished.CompletedAsDrafted | src/mox_adv/campaign_lifecycle.py:1806-1873 | In every run, at the event that completes the eighth step the adapter holds exactly the campaign of the draft under the identifiers the saga registered |
| SagaPublished.AppliedWasPublished | src/mox_adv/campaign_lifecycle.py:1364-1395 | So every saga that is APPLIED was published exactly as drafted at some moment of the run |
| SagaForward.AppliedIsWhole | src/mox_adv/campaign_lifecycle.py:1764-1804 | In every run a saga that completed all steps, so every APPLIED one, never had an object deleted by compensation |
| SagaForward.ForwardAfterDelete | src/mox_adv/campaign_lifecycle.py:1897-1932 | Compensation records nothing before it deletes, so a crash can let the saga go forward again. In every run, after an object was deleted: the next fault-free step completes if and only if the live ads are all in moderation at step six, or the one live campaign stands suspended at step seven; a pending step is completed by reconciliation if and only if it is an answered launch |
| SagaForward.LaunchesAfterDelete | src/mox_adv/campaign_lifecycle.py:1741-1762 | Such a run from an empty store, for every grantable plan: the keyword is deleted, the process dies, and the next calls launch the campaign without it |
| SagaProgressRuns.RunOrderly | src/mox_adv/campaign_lifecycle.py:862-893 | Every run keeps: the rows of a saga are the answers of its completed add steps, and of a registered pending one, in step order; an answer is of the kind of its dispatch; an object is deleted only in a saga that submitted its ads or whose pending step can never complete, and never after the last step |
| SagaProgressRuns.StepOrderly | src/mox_adv/campaign_lifecycle.py:1573-1588 | Each commit, call, refusal or crash keeps that |
| SagaProgressRuns.LastReadbackMeansWhole | src/mox_adv/campaign_lifecycle.py:1764-1804 | The last readback completes only for a saga of which nothing was deleted |
| SagaWedges.PendingStuckWhen | src/mox_adv/campaign_lifecycle.py:1397-1511 | A running saga with a pending dispatch is stuck (every later call raises and changes nothing, whatever it meets) if and only if the remembered reply is of another kind or belongs to a later add step and cannot be registered |
| SagaForward.PendingStuckInRuns | src/mox_adv/campaign_lifecycle.py:1460-1511 | In every run only the second case arises: stuck if and only if the pending step is an add step after the first, answered, whose objects cannot be registered |
| SagaWedges.RestStuckWhen | src/mox_adv/campaign_lifecycle.py:1364-1395 | A running saga with nothing pending is stuck for fault-free calls if and only if its next step is refused by the stored plan, the live rows and the objects in the adapter, and stuck whatever calls meet if and only if it is refused before the adapter is called |
| SagaForward.EarlyStuckWhen | src/mox_adv/campaign_lifecycle.py:1698-1717 | In every run a saga with nothing pending and at most four steps is stuck if and only if it is about to submit its ads and one of them is no draft any more |
| SagaWedgeRuns.ReachesRegistered | src/mox_adv/campaign_lifecycle.py:1573-1588 | From an empty store, for every grantable plan and each later add step: a run that dies between registering the objects and closing the step, and leaves the saga IN_FLIGHT and stuck |
| SagaWedgeRuns.ReachesWrongType | src/mox_adv/campaign_lifecycle.py:1448-1511 | From an empty store, for every grantable plan and each later add step: a run in which the response is lost and the objects are of another type, and reconciliation leaves the saga IN_FLIGHT and stuck |
| SagaWedgeRuns.ReachesRefusedModeration | src/mox_adv/campaign_lifecycle.py:1719-1739 | From an empty store, for every grantable plan: a run in which moderation refuses an ad and the process dies in the compensation after the keyword and the ads are deleted; the saga is IN_FLIGHT and stuck, and its campaign stands |
| SagaWedges.CrashAfterRegistering | src/mox_adv/campaign_lifecycle.py:1573-1588 | So registering the objects of a later add step is a point where a crash leaves the saga stuck |
| SagaWedges.LostWrongTypeIsStuck | src/mox_adv/campaign_lifecycle.py:1448-1511 | And so is a lost response whose objects have the wrong type: reconciliation registers them and raises instead of compensating |
| SagaWedges.CrashAfterAuthority | src/mox_adv/campaign_lifecycle.py:1448-1458 | A crash after the authority was used and before the campaign is registered ends UNKNOWN_RESULT at the next reconciliation |
| SagaWedges.SecondExecutorCancelsClaim | src/mox_adv/direct_management.py:687-695 | With two live executors of one saga the second claim of the same write is refused and its cancellation takes back the first one's claim |
| SagaRefinement.ExecuteIsARun | src/mox_adv/campaign_lifecycle.py:1338-1395 | Every call of the service, whatever the faults, gates and step budget, is a sequence of machine events ending in the same store and adapter, so everything proved for runs holds for the service |
| SagaRefinement.ExecuteKeeps | src/mox_adv/campaign_lifecycle.py:1338-1395 | A call of the service on a reachable system leaves a reachable system |
| SagaRefinement.StepIsARun | src/mox_adv/campaign_lifecycle.py:1540-1571 | Each of the eight step handlers is a sequence of machine events, whatever its outcome |
| SagaRefinement.ReconcileIsARun | src/mox_adv/campaign_lifecycle.py:1397-1511 | Reconciling a pending dispatch is a sequence of machine events, whatever the adapter remembers |
| SagaSafety.CancelShape | src/mox_adv/campaign_lifecycle.py:477-500 | Cancelling a claim removes at most the pending row, and only when it is the cancelled request's own |
| SagaSafety.ClaimShape | src/mox_adv/campaign_lifecycle.py:1028-1116 | Claiming keeps the dispatch ledger well-shaped: a granted claim appends one pending row for the next step |
| SagaSafety.CompleteShape | src/mox_adv/campaign_lifecycle.py:770-834 | Completing a step keeps the prefix and dispatch shape |
| SagaWrites.ClaimGranted | src/mox_adv/campaign_lifecycle.py:1028-1116 | A granted claim belongs to the executing saga, for the request the handler built, under a key that never reached the adapter before |
| SagaWrites.RefuseKeeps | src/mox_adv/direct_management.py:662-695 | Taking a claim back after a refused authorization keeps the invariant, because its key never reached the adapter |
| SagaService.ReconcileKeepsAdapter | src/mox_adv/campaign_lifecycle.py:1397-1511 | Reconciliation only reads: the adapter is left exactly as it was |
| SagaService.RetryConsumesLoss | src/mox_adv/campaign_lifecycle.py:1364-1395 | An execute that starts over after an unknown outcome has used up one lost response, so the retries end |
| DirectAdapter.AddAllIsFresh | src/mox_adv/direct_management.py:997-1052 | New objects get consecutive identifiers never used before, and every other object is unchanged |
| DirectAdapter.MoveAllMoves | src/mox_adv/direct_management.py:1072-1090 | A transition changes only the listed objects and only their state, and succeeds when all of them exist |
| DirectAdapter.ReadAll | src/mox_adv/direct_management.py:1054-1059 | A readback answers exactly when every requested object exists, with the objects in the requested order |
| DirectAdapter.FakeDirectManagementAdapter.NextId | src/mox_adv/direct_management.py:1092-1095 | Hands out the service's next number and advances only that counter |
| DirectAdapter.FakeDirectManagementAdapter.AddObjects | src/mox_adv/direct_management.py:997-1052 | The insertion loop creates one object per content under consecutive fresh identifiers |
| DirectAdapter.FakeDirectManagementAdapter.MoveObjects | src/mox_adv/direct_management.py:1072-1090 | The transition loop stops at a missing object and keeps the earlier changes |
| DirectAdapter.FakeDirectManagementAdapter.ApplyRequest | src/mox_adv/direct_management.py:969-995 | Objects and counters after a request, by verb, equal the adapter specification |
| DirectAdapter.FakeDirectManagementAdapter.InvokeRequest | src/mox_adv/direct_management.py:837-910 | A remembered key answers from memory with no change; otherwise the call is logged, may fail before taking effect, may take effect, and may then lose its response once |
| SagaStore.CampaignSagaStore.RegisterCreationReservation | src/mox_adv/campaign_lifecycle.py:568-621 | Inserts once; the same reservation again changes nothing, a different one under its identifier is refused |
| SagaStore.CampaignSagaStore.RegisterCampaignApproval | src/mox_adv/campaign_lifecycle.py:623-652 | Inserts once; re-registering the same approval does not reset its status |
| SagaStore.CampaignSagaStore.StartOrLoadSaga | src/mox_adv/campaign_lifecycle.py:654-724 | Either the stored saga of the same plan is loaded, or reservation, approval, saga and run row are written together, or nothing changes |
| SagaStore.CampaignSagaStore.ClaimDirectOperation | src/mox_adv/campaign_lifecycle.py:1028-1116 | A claim is inserted only for the operation the stored plan expects next, once, and only while the gate is open |
| SagaStore.CampaignSagaStore.CancelDirectOperationClaim | src/mox_adv/campaign_lifecycle.py:477-500 | Removes only the matching uncompleted claim of the run |
| SagaStore.CampaignSagaStore.ConsumeFirstWriteAuthority | src/mox_adv/campaign_lifecycle.py:836-860 | Reservation and approval become USED together or neither does |
| SagaStore.CampaignSagaStore.RegisterDispatchedObjects | src/mox_adv/campaign_lifecycle.py:862-893 | Rows for all created objects or, on a primary-key collision, no change |
| SagaStore.CampaignSagaStore.CompleteStep | src/mox_adv/campaign_lifecycle.py:770-834 | The next step is completed and its dispatch closed together, or nothing changes |
| SagaStore.CampaignSagaStore.FinishSaga | src/mox_adv/campaign_lifecycle.py:895-907 | Only status and detail of the one saga change |
| SagaStore.CampaignSagaStore.MarkObjectCompensated | src/mox_adv/campaign_lifecycle.py:1282-1294 | Only the rows of the one object are marked |
| CampaignLifecycle.DirectManagementConnector.Write | src/mox_adv/direct_management.py:528-595 | Ownership, claim and authorization come before the adapter; on a failed authorization the claim is cancelled and the adapter is not called |
| CampaignLifecycle.DirectManagementConnector.Get | src/mox_adv/direct_management.py:490-504 | Reads need ownership and take no claim; the store is unchanged |
| CampaignLifecycle.CampaignLifecycleService.CompleteAddStep | src/mox_adv/campaign_lifecycle.py:1573-1588 | Objects are registered before their types are checked, so a wrong type is compensated |
| CampaignLifecycle.CampaignLifecycleService.AddStep | src/mox_adv/campaign_lifecycle.py:1590-1696 | Store, adapter and outcome of each of the four add steps, the first of which uses the authority |
| CampaignLifecycle.CampaignLifecycleService.SubmitStep | src/mox_adv/campaign_lifecycle.py:1698-1717 | Store, adapter and outcome of submitting all registered ads to moderation |
| CampaignLifecycle.CampaignLifecycleService.ModerationStep | src/mox_adv/campaign_lifecycle.py:1719-1739 | Completes only when every registered ad reads back in the MODERATION state |
| CampaignLifecycle.CampaignLifecycleService.LaunchStep | src/mox_adv/campaign_lifecycle.py:1741-1762 | Store, adapter and outcome of launching the one registered campaign |
| CampaignLifecycle.CampaignLifecycleService.FullReadbackStep | src/mox_adv/campaign_lifecycle.py:1764-1803 | Four reads, kind by kind, and completion only when all match the draft |
| CampaignLifecycle.CampaignLifecycleService.RunStep | src/mox_adv/campaign_lifecycle.py:1540-1571 | Dispatches to the handler of the step |
| CampaignLifecycle.CampaignLifecycleService.ReconcilePendingDispatch | src/mox_adv/campaign_lifecycle.py:1397-1511 | A pending dispatch is settled from the remembered result, or the saga is closed UNKNOWN_RESULT |
| CampaignLifecycle.CampaignLifecycleService.CompensateCreated | src/mox_adv/campaign_lifecycle.py:1897-1932 | The deletion loop goes on after a failure and counts it |
| CampaignLifecycle.CampaignLifecycleService.DeleteCreated | src/mox_adv/campaign_lifecycle.py:1934-1957 | One state-guarded delete, marked compensated only when it succeeded |
| CampaignLifecycle.CampaignLifecycleService.FinishAfterDefiniteFailure | src/mox_adv/campaign_lifecycle.py:1897-1932 | Ends FAILED without objects, PARTIALLY_APPLIED when all were deleted, COMPENSATION_REQUIRED otherwise |
| CampaignLifecycle.CampaignLifecycleService.RunRemaining | src/mox_adv/campaign_lifecycle.py:1364-1395 | The step loop: in order, from the first incomplete step, within the budget |
| CampaignLifecycle.CampaignLifecycleService.Execute | src/mox_adv/campaign_lifecycle.py:1338-1395 | Store, adapter and result of a call equal the specification proved about above, with retries after a resolved unknown outcome |
| Commands.RoundHalfUp | src/mox_adv/commands.py:182-195 | The nearest integer to the quotient, and on a tie the one further from zero |
| Commands.RoundingIsDetermined | src/mox_adv/commands.py:182-195 | The rounding contract has exactly one solution |
| Commands.RelativeTargetMoves | src/mox_adv/commands.py:182-195 | An upward step of p percent moves a value exactly when value times p is at least 50, a downward step exactly when it is more than 50; steps never move the wrong way |
| Commands.TenPercentMoves | src/mox_adv/commands.py:182-195 | Ten percent moves every value from 5 upward and, downward, every value from 6, and no smaller one |
| Commands.BuildsWhen | src/mox_adv/commands.py:198-340 | A command is built if and only if the change is exact for its action: a step of one to ten percent from the source to its rounded target within the limits, the other written variant, or the opposite campaign state |
| Commands.CommandChangesValue | src/mox_adv/commands.py:198-340 | Source and target of a built command differ exactly when the step is large enough to survive rounding; other command kinds always differ |
| Commands.RollbackIsExact | src/mox_adv/commands.py:198-340 | For variant and state changes the rollback command undoes the change exactly, and its own rollback is the change |
| Commands.UpIsUndoneWhen | src/mox_adv/commands.py:182-195 | For every value and every step from 1 to 100 percent: up and down again gives the value back if and only if the step, taken of the target, is worth at most half a unit more than the distance moved |
| Commands.DownIsUndoneWhen | src/mox_adv/commands.py:182-195 | For every value and step: down and up again gives the value back if and only if the step was not worth exactly half a unit and the distance is at most half a unit more than the step taken of the target |
| Commands.TenPercentIsUndone | src/mox_adv/commands.py:182-195 | For ten percent the condition is on size and last digit alone, both directions |
| Commands.RelativeStepsDoNotUndo | src/mox_adv/commands.py:182-195 | No step of ten percent up from 96 or down from 106 is undone by the opposite step; 95 and 105 are; the first that are not are 24 and 5; 100 ends at 99 |
| Commands.NumericRollbackIsExactWhen | src/mox_adv/commands.py:216-265 | A numeric command's rollback names the opposite action and the former value; a command with the same step that carries it out can be built if and only if the opposite step leads back and the former value is within the limits |
| DispatchSafety.AtMostOnce | src/mox_adv/control_state.py:1802-2044 | Under every interleaving of approval executors, mandate executors, revokers and kill-switch operators with crashes: at most one transport call per execution key, per approval and per proposal |
| DispatchSafety.EveryCallIsAuthorized | src/mox_adv/control_state.py:1983-2044 | Every approval-path call follows a commit at which that approval was reserved for that key, unused, unrevoked and unexpired, and no kill-switch row of its scopes was active |
| ApprovalBinding.CallsAreApproved | src/mox_adv/control_state.py:1855-1900 | Under every interleaving each call of the approval path follows a commit that consumed an approval given for exactly the change that is sent, while it was reserved for it, unused, unrevoked and unexpired and none of the four switches of its scope was on |
| ApprovalBinding.SendsWhen | src/mox_adv/control_state.py:1802-1981 | The start moves if and only if the execution is new, every other one is settled, none of the four switches is on in either store, and the approval is for this very change, unused, unrevoked, unreserved and unexpired; both rows are then written, otherwise none; and what it answers |
| ApprovalBinding.BeginsWhen | src/mox_adv/control_state.py:1741-1800 | Beginning an execution that will not write: the exact condition on the approval and the row |
| ApprovalBinding.ReservesWhen | src/mox_adv/control_state.py:1673-1739 | Reserving it: the exact condition and what it answers |
| ApprovalBinding.ConsumesWhen | src/mox_adv/control_state.py:1990-2030 | The consuming transaction: the exact condition |
| ApprovalBinding.FinishesWhen | src/mox_adv/control_state.py:2079-2123 | Finishing: the exact condition and what it answers |
| ApprovalBinding.ReleasesWhen | src/mox_adv/control_state.py:2065-2077 | A reservation is given back if and only if it is of this execution and unused |
| ApprovalBinding.GrantsWhen | src/mox_adv/control_state.py:1545-1597 | Granting an approval: the exact condition, and what is stored |
| ApprovalBinding.RevokesWhen | src/mox_adv/control_state.py:1645-1671 | Revoking an approval: the exact condition |
| ApprovalBinding.SameExecutionWhen | src/mox_adv/control_state.py:331-344 | Two changes are one execution if and only if they agree on the nine fields of the key |
| DispatchSafety.LedgerShape | src/mox_adv/control_state.py:1673-1739 | At every point of every run: at most one RESERVED or IN_FLIGHT row; final rows stay as they are; once an UNKNOWN_RESULT row exists no row is inserted again; a row changes at most three times |
| DispatchSafety.StatusChangesAtMostThrice | src/mox_adv/control_state.py:2079-2123 | Status changes of a row plus its starting rank never exceed three, so every change raises the rank |
| DispatchSafety.StepAdvances | src/mox_adv/control_state.py:1673-2123 | Each single transaction of either path only inserts rows while nothing is active or unknown, and only raises ranks |
| DispatchSafety.ConsumeAuthorizes | src/mox_adv/control_state.py:1983-2044 | A successful consumption keeps every approval-path call, made or about to be made, preceded by the commit that authorizes it |
| MandateQuotas.QuotasHold | src/mox_adv/mandate_store.py:1180-1251 | Over every history, also with a clock that steps back: per mandate at most the quota of actions in any 24 hours, exposure within total and per-day limits, daily step sum within its cap; consumptions on one target, of any mandate, at least the earlier observation window apart; consumptions are never taken back |
| MandateCharges.ChargesAreTrue | src/mox_adv/autonomy_contracts.py:109-136 | Over every history every consumption is charged with the rounded distance and the step of the change it was reserved for, nothing for a change that is not relative, on that change's campaign, under a mandate that covers its scope, action and policy and had not expired |
| MandateCharges.MandateCallsAreCovered | src/mox_adv/mandate_store.py:434-537 | And every call of the mandate path is of the change that was charged, which its mandate covers |
| MandateCharges.ReservesUnderWhen | src/mox_adv/mandate_store.py:434-537 | The mandate path reserves if and only if the mandate is in force and covers the change, the execution is new, every other one is settled, no switch row is on, and the charge stays within every quota; then execution and charge are written together, otherwise nothing |
| MandateCharges.TooExpensiveIsRefused | src/mox_adv/mandate_store.py:1180-1251 | A numeric change whose rounded distance exceeds what is left of the total or of the day is refused, whatever else holds |
| MandateCharges.StartsUnderWhen | src/mox_adv/mandate_store.py:539-634 | The mandate path's start: the exact condition |
| MandateCharges.ReadsPassWhen | src/mox_adv/mandate_store.py:1067-1106 | Each read of the last check: the exact condition |
| MandateCharges.RechecksWhen | src/mox_adv/mandate_store.py:636-809 | Recording a readback: the exact condition |
| MandateCharges.IssuesWhen | src/mox_adv/mandate_store.py:215-261 | Issuing a mandate: the exact condition, and what is stored |
| MandateCharges.RevokesRowWhen | src/mox_adv/mandate_store.py:320-385 | Revoking a mandate's row: the exact condition |
| MandateCharges.ActivatesWhen | src/mox_adv/mandate_store.py:263-318 | Activating a mandate: the exact condition |
| MandateQuotas.ReserveKeepsQuotas | src/mox_adv/mandate_store.py:434-537 | A granted reservation keeps all quotas |
| MandateQuotas.MandateCallsAreCharged | src/mox_adv/mandate_store.py:539-634 | Every mandate-path transport call has exactly one consumption, under its own key and mandate |
| MandateQuotas.WindowIsRecent | src/mox_adv/mandate_store.py:1180-1215 | A reservation falling in a 24-hour window that contains the new one is counted by the check, whatever the order of the clock reads |
| KillNames.NamedSwitchStops | src/mox_adv/interrupt_state.py:107-117 | A row or signal named global, organization:, connection: or campaign: of the change's own scope refuses every start, consumption and last check, and a row both mandate transactions as well |
| KillNames.OtherSwitchesStopNothing | src/mox_adv/control_state.py:2244-2261 | A row or signal of any other name, such as another campaign's, changes no answer |
| KillSwitch.NothingSentAgainstSignal | src/mox_adv/mandate_store.py:1067-1106 | From the moment a sidecar signal stands and while nobody clears it, the only calls it is meant to stop are those of executors that had read past it before, and none if there is none |
| KillSwitch.RevocationIsForever | src/mox_adv/mandate_store.py:320-385 | Once the sidecar commit of a revocation happened, the mandate can never reserve, start or pass the last check again, even if the main transaction never ran, and only executors that had read past the signal still call |
| KillSwitch.PastStillCalls | src/mox_adv/control_state.py:1983-2044 | An executor that has read past a signal when it is committed, inside its last check or after it, makes its call all the same unless a later read of the check finds something |
| SwitchOperators.EngagedUntilReleased | src/mox_adv/interrupt_state.py:50-104 | In every interleaving from the first commit of an engage until a release clears the signal: every start, consumption and dispatch check of the scope begun then is refused, and the only calls of the scope are of executors that had read past the signal before it was committed |
| SwitchOperators.StepStaysBacked | src/mox_adv/control_state.py:2135-2193 | From a world where the row of a scope implies its signal, an event keeps that so if and only if it is neither clearing the signal under an active row nor activating the row without a signal |
| SwitchOperators.RunStaysBacked | src/mox_adv/control_state.py:2135-2193 | Every point of a run is backed if and only if it starts backed and none of its events is one of those two where it happens |
| SwitchOperators.OverlapDiverges | src/mox_adv/control_state.py:2135-2193 | One engage and one release of a scope, merged in any way with any other events between: the row ends backed if and only if one operator finished before the other began; every overlap ends with an active row and no signal |
| SwitchOperators.RowStillStops | src/mox_adv/control_state.py:2214-2261 | A row without its signal still refuses every start, reservation, consumption and dispatch check of its scope |
| SwitchOperators.OperatorsKeepBacked | src/mox_adv/control_state.py:2135-2193 | For scopes operated one operation at a time, an active row always has an active signal, wherever an operator crashed |
| SwitchOperators.OperatorsAreARun | src/mox_adv/control_state.py:2135-2193 | Whatever such operators do is a sequence of events of the interleaving, so their rows stay backed there too |
| Recovery.OutcomesAreTrue | src/mox_adv/approval_execution.py:329-520 | With one process that may crash anywhere, at every point a recorded APPLIED or NO_CHANGE means the account holds the target, FAILED that it holds the source, UNKNOWN_RESULT that it holds neither |
| Recovery.RecoveryTellsTheTruth | src/mox_adv/approval_execution.py:685-746 | A crash at any point of an execution followed by reconcile records APPLIED exactly when the account holds the target, FAILED exactly when it holds the source, UNKNOWN_RESULT otherwise, and neither writes nor calls |
| Recovery.ValueStays | src/mox_adv/fake_write_adapter.py:38-49 | The account only ever holds its first value or the target |
| Recovery.CalledOnce | src/mox_adv/approval_execution.py:329-520 | With crashes and recoveries anywhere, the change is sent at most once |
| Recovery.Classified | src/mox_adv/autonomy_contracts.py:139-150 | APPLIED exactly at the target, FAILED exactly at a source that is not the target |
| LateCalls.LateCallWhen | src/mox_adv/mandate_store.py:564-572 | With any number of executors: recording the readback of an execution in flight can be followed by its transport call if and only if an executor on the way to that call is armed, or its approval is still reserved for it, unused and unrevoked, or its mandate is revoked in no store that its last check has still to read |
| LateCalls.NeverCalledAgain | src/mox_adv/control_state.py:1983-2044 | When no such executor exists a started execution is never called again, whatever happens |
| LateCalls.AwaitedCalls | src/mox_adv/mandate_store.py:539-634 | When one exists there is a continuation in which it makes the call |
| LateCalls.SecondExecutorMayRecordTooEarly | src/mox_adv/autonomy_execution.py:442-455 | From the empty database and the account at its source, for every change a mandate covers: a second executor finds IN_FLIGHT and records FAILED from the readback, the first then sends, and the account holds the target under a recorded FAILED |
| LateCalls.OvertakingHappens | src/mox_adv/autonomy_execution.py:442-455 | Such changes and mandates exist |
| ServiceAnswers.ApproveAnswers | src/mox_adv/approval_execution.py:329-520 | A call of the approval service answers what is recorded; it writes if and only if the gates are open, the account is at the source, the execution is new, every other one is settled, no switch is on and the approval is for this change and free; when it writes, the readback decides the answer |
| ServiceAnswers.MandateAnswers | src/mox_adv/autonomy_execution.py:91-208 | A call of the mandate service answers what is recorded; it writes if and only if the gates are open, the account is at the source, the mandate is in force and covers the change, no switch is on, and the execution is reserved for this mandate or can be reserved within its quotas |
| ServiceAnswers.SettledWhen | src/mox_adv/approval_execution.py:455-480 | What a readback records and answers |
| ServiceAnswers.ReconcileAnswers | src/mox_adv/approval_execution.py:685-746 | Reconciling answers what it records or what is recorded, and never writes |
| ServiceAnswers.RecoveryAnswersAreTrue | src/mox_adv/approval_execution.py:685-746 | And so is the answer of a reconciliation |
| ServiceAnswers.RecheckAnswers | src/mox_adv/autonomy_execution.py:210-293 | Rechecking answers the row's status, changes it only to what the account holds, and never writes |
| ServiceAnswers.AnswersAreTrue | src/mox_adv/autonomy_execution.py:416-547 | On a truthful database an answer APPLIED or NO_CHANGE means the account is at the target, FAILED at the source, UNKNOWN_RESULT at neither |
| ExecutionRuns.ApproveIsARun | src/mox_adv/approval_execution.py:329-520 | Every call of the approval service is a sequence of events of the recovery machine ending in the same database and value |
| ExecutionRuns.MandateIsARun | src/mox_adv/autonomy_execution.py:91-208 | Every call of the mandate service is a sequence of events of the recovery machine ending in the same database and value |
| ExecutionRuns.ServicesTellTheTruth | src/mox_adv/autonomy_execution.py:416-547 | After any call of either service on a truthful database the recorded outcome is what the account holds |
| ControlState.DurableInterruptState.Engage | src/mox_adv/interrupt_state.py:50-57 | Exactly this signal is added |
| ControlState.DurableInterruptState.Release | src/mox_adv/interrupt_state.py:59-66 | Exactly this signal is removed |
| ControlState.DurableControlState.SendOnceCommit | src/mox_adv/control_state.py:1802-1981 | Approval reserved and execution in flight together, or no change and the standing status or refusal |
| ControlState.DurableControlState.ConsumeReservedApproval | src/mox_adv/control_state.py:1983-2044 | The sidecar is read, then one transaction makes the reserved approval used when no row stops it |
| ControlState.DurableControlState.RequireNoInterrupt | src/mox_adv/control_state.py:2223-2242 | Open exactly when no signal of the scope stands in the sidecar |
| ControlState.DurableControlState.ConsumeCommit | src/mox_adv/control_state.py:1990-2030 | The consuming transaction reads rows only: the approval becomes used when it is reserved for this execution, unused, unrevoked and unexpired, and no row stops it |
| ControlState.DurableControlState.ReleaseApprovalReservation | src/mox_adv/control_state.py:2065-2077 | Only an unused reservation of the same key is given back |
| ControlState.DurableControlState.Reserve | src/mox_adv/control_state.py:1673-1739 | Inserts a RESERVED row only when none exists for the key, none is active and none is unknown |
| ControlState.DurableControlState.Begin | src/mox_adv/control_state.py:1741-1800 | RESERVED becomes IN_FLIGHT together with the approval reservation |
| ControlState.DurableControlState.FinishExecution | src/mox_adv/control_state.py:2079-2123 | Only active rows are finished; repeating the recorded status is harmless |
| ControlState.DurableControlState.GrantApproval | src/mox_adv/control_state.py:1545-1597 | An approval is written once |
| ControlState.DurableControlState.Revoke | src/mox_adv/control_state.py:1645-1671 | Only the approver revokes, and only an unused approval |
| ControlState.DurableControlState.EngageKillSwitch | src/mox_adv/control_state.py:2135-2159 | Signal and row both on |
| ControlState.DurableControlState.ReleaseKillSwitch | src/mox_adv/control_state.py:2161-2193 | Row and signal both off |
| ControlState.DurableMandateAuthority.IssueMandate | src/mox_adv/mandate_store.py:215-261 | A mandate is written once; the same terms again change nothing, others are refused |
| ControlState.DurableMandateAuthority.ActivateMandate | src/mox_adv/mandate_store.py:263-318 | Never reactivates a revoked mandate nor activates an expired one |
| ControlState.DurableMandateAuthority.Revoke | src/mox_adv/mandate_store.py:320-385 | The signal is set even when the mandate is unknown; otherwise the row is revoked too |
| ControlState.DurableMandateAuthority.CheckQuota | src/mox_adv/mandate_store.py:1180-1251 | One pass over the consumptions finds the first violated quota, compared with independently defined sums, counts and windows |
| ControlState.DurableMandateAuthority.Reserve | src/mox_adv/mandate_store.py:434-537 | Execution row and consumption are inserted together, or nothing changes |
| ControlState.DurableMandateAuthority.SendOnceCommit | src/mox_adv/mandate_store.py:539-634 | RESERVED becomes IN_FLIGHT only under an active mandate that holds the consumption |
| ControlState.DurableMandateAuthority.RecordRecheckResult | src/mox_adv/mandate_store.py:636-809 | BLOCKED or FAILED becomes APPLIED or UNKNOWN_RESULT with a recheck row, and no new consumption |
| ExecutionServices.FakeWriteAdapter.Apply | src/mox_adv/fake_write_adapter.py:38-49 | Counts the call; the first timeout is raised before the value is stored, otherwise exactly the target gets the value |
| ExecutionServices.ApprovalExecutionService.Execute | src/mox_adv/approval_execution.py:329-520 | Database, account value, call count and outcome equal the specification proved a run of the recovery machine |
| ExecutionServices.ApprovalExecutionService.Reconcile | src/mox_adv/approval_execution.py:685-746 | An unfinished execution is closed from a readback; the adapter is not written |
| ExecutionServices.ApprovalExecutionService.RecordNoChange | src/mox_adv/approval_execution.py:391-411 | A value already at its target is recorded NO_CHANGE and the approval is given back |
| ExecutionServices.BoundedAutonomyService.Execute | src/mox_adv/autonomy_execution.py:91-208 | Reserve with quota, start, last check, transport, readback: equal to the specification proved a run of the recovery machine |
| ExecutionServices.BoundedAutonomyService.Dispatch | src/mox_adv/autonomy_execution.py:416-455 | From the start commit to the recorded classification |
| ExecutionServices.BoundedAutonomyService.Recheck | src/mox_adv/autonomy_execution.py:210-293 | Compares a BLOCKED or FAILED execution with the account again, without call or quota |
| GoalGrants.CreationStartsWhen | src/mox_adv/goal_store.py:294-388 | A goal creation starts if and only if its authority is ready, of the expected principal, for goal authoring under its proposal, counter, zone, policy and binding, unexpired and within quota, its reservation has room, and its signature is unclaimed; all four rows are then written, otherwise none |
| GoalGrants.PublicationStartsWhen | src/mox_adv/goal_store.py:390-452 | A publication starts if and only if the candidate is unpublished and such an authority allows publishing it |
| GoalGrants.CreationCompletesWhen | src/mox_adv/goal_store.py:454-519 | Completing a creation: the exact condition, and the rows it leaves |
| GoalGrants.PublicationCompletesWhen | src/mox_adv/goal_store.py:521-568 | Completing a publication: the exact condition, and the rows it leaves |
| GoalGrants.AuthorityWrittenOnce | src/mox_adv/goal_store.py:218-292 | Registering an authority: the exact condition, and what is stored |
| GoalGrants.RoomWrittenOnce | src/mox_adv/goal_store.py:192-216 | Registering a reservation: the exact condition, and what is stored |
| GoalGrants.MarksUnknownWhen | src/mox_adv/goal_store.py:570-583 | Only an execution in flight becomes of unknown outcome |
| GoalGrants.AbortsWhen | src/mox_adv/goal_store.py:585-612 | Aborting: the exact condition, and the rows it leaves |
| GoalGrants.DecidesWhen | src/mox_adv/goal_store.py:679-693 | Deciding a candidate: the exact condition |
| GoalGrants.CleanupClosesWhen | src/mox_adv/goal_store.py:711-749 | Closing a cleanup: the exact condition, and the rows it leaves |
| GoalLedger.AbortUndoesCreation | src/mox_adv/goal_store.py:585-612 | Aborting a newly begun goal creation restores every table |
| GoalLedger.AbortUndoesPublication | src/mox_adv/goal_store.py:585-612 | Aborting a newly begun publication restores every table |
| GoalLedger.UsesAreCompletions | src/mox_adv/goal_store.py:898-923 | Over any run `actions_used` rises once per completed execution and by nothing else, never passes the quota, and an approval completes at most one execution |
| GoalLedger.CompletedAtMostOnce | src/mox_adv/goal_store.py:454-568 | No execution is completed twice |
| GoalLedger.AppliedStays | src/mox_adv/goal_store.py:958-970 | An applied execution row never changes again, nor is it removed by an abort |
| GoalLedger.RunsKeepTables | src/mox_adv/goal_store.py:808-945 | On every reachable state an authority is held exactly while reserved with uses within quota, a reservation is held exactly while bound, and every signature claim belongs to one execution that has no other claim |
| GoalCleanup.CleanupGoesOnWhen | src/mox_adv/goal_service.py:418-473 | Cleanup goes on only for a rejected candidate of this run, at the first half that is not done |
| GoalCleanup.SiteRolledBackWhen | src/mox_adv/goal_service.py:418-473 | The site is written only behind an open gate, for the recorded publication that stands as published; the exact condition |
| GoalCleanup.GoalDeletedWhen | src/mox_adv/goal_service.py:418-473 | The goal is deleted only behind an open gate; the exact condition |
| GoalCleanup.RollsBackWhen | src/mox_adv/goal_adapters.py:255-271 | A publication is rolled back only as the one that stands, of this run, over the version it published |
| GoalCleanup.CleanupIsRestartable | src/mox_adv/goal_service.py:418-473 | With crashes anywhere and any number of reruns: at most one rollback and one deletion; once finished the goal is gone, its claim is free and a recorded publication is rolled back to the previous version |
| GoalCleanup.UnrecordedPublicationStays | src/mox_adv/goal_service.py:418-473 | After a finished cleanup the site holds no publication of the candidate if and only if the publication had been recorded or there was none |
| GoalCleanup.StoppedBeforeRecording | src/mox_adv/goal_service.py:265-290 | Whenever a publication was begun and the process stops between the site's answer and the record: the candidate can be rejected, the cleanup completes, and the site stays as published |
| GoalCleanup.PublicationIsBegun | src/mox_adv/goal_service.py:208-240 | Such a moment is reached from empty tables |
| GoalCleanup.CleanupCompletes | src/mox_adv/goal_service.py:418-473 | From wherever it was stopped, at most six undisturbed steps finish the cleanup |
| GoalCleanup.CallIsARun | src/mox_adv/goal_service.py:418-473 | One call of the cleanup is a sequence of machine events |
| GoalCleanup.GoalLifecycleService.CleanupRejectedCandidate | src/mox_adv/goal_service.py:418-473 | Tables and both adapters after a call equal the specification, skipping what an earlier call had done |
| GoalCleanup.FakeSitePublishAdapter.Rollback | src/mox_adv/goal_adapters.py:255-271 | Only the standing publication of the run is rolled back, to its previous version |
| GoalCleanup.FakeSitePublishAdapter.Publish | src/mox_adv/goal_adapters.py:191-234 | Publishing needs the expected version and leaves the next one |
| GoalCleanup.FakeMetrikaGoalAdapter.DeleteGoalIfPresent | src/mox_adv/goal_adapters.py:122-129 | Deletes exactly this goal, and says whether it was there |
| GoalStore.GoalLifecycleStore.RegisterGoalAuthority | src/mox_adv/goal_store.py:218-292 | Written once with immutable terms |
| GoalStore.GoalLifecycleStore.RegisterGoalReservation | src/mox_adv/goal_store.py:192-216 | Written once with immutable terms |
| GoalStore.GoalLifecycleStore.BeginGoalCreation | src/mox_adv/goal_store.py:294-388 | Authority, reservation, signature claim and execution are taken together or not at all; the same plan again only reports it |
| GoalStore.GoalLifecycleStore.BeginSitePublication | src/mox_adv/goal_store.py:390-452 | Authority and execution are taken together or not at all |
| GoalStore.GoalLifecycleStore.CompleteGoalCreation | src/mox_adv/goal_store.py:454-519 | Candidate stored, authority used once, reservation used, execution applied, together |
| GoalStore.GoalLifecycleStore.CompleteSitePublication | src/mox_adv/goal_store.py:521-568 | Publication stored, authority used once, execution applied, together |
| GoalStore.GoalLifecycleStore.MarkUnknownResult | src/mox_adv/goal_store.py:570-583 | Only an execution in flight becomes unknown |
| GoalStore.GoalLifecycleStore.AbortBeforeWrite | src/mox_adv/goal_store.py:585-612 | Gives back authority, reservation and claims and removes the execution, only while nothing was written |
| GoalStore.GoalLifecycleStore.DecideSemantics | src/mox_adv/goal_store.py:679-693 | An open candidate is approved or rejected, once |
| GoalStore.GoalLifecycleStore.StartCleanup | src/mox_adv/goal_store.py:751-768 | Creates the progress row once |
| GoalStore.GoalLifecycleStore.MarkPublicationRolledBack | src/mox_adv/goal_store.py:770-776 | Only this progress flag changes |
| GoalStore.GoalLifecycleStore.MarkGoalDeleted | src/mox_adv/goal_store.py:778-784 | Only this progress flag changes |
| GoalStore.GoalLifecycleStore.CloseCleanup | src/mox_adv/goal_store.py:711-749 | Requires both halves; frees the claim, drops the publication and completes the cleanup |
| AuditJournal.VerifiesWhen | src/mox_adv/audit.py:435-461 | A journal verifies if and only if its state names its owner and tail and every row is numbered, linked to the row before it and hashed over its fields |
| AuditJournal.AppendsWhen | src/mox_adv/audit.py:240-337 | A journal takes an event if and only if the event has a name, it is not sealed, its state names its tail and every row is linked; the event becomes one linked row with its own fields |
| AuditJournal.SealsWhen | src/mox_adv/audit.py:339-383 | A journal is sealed if and only if it verifies, has rows and is not sealed yet |
| AuditJournal.AnchorAcceptedWhen | src/mox_adv/audit.py:483-526 | An anchor is accepted if and only if it names a verified journal's tail, this key and a permitted age, and is signed over itself |
| AuditJournal.ReachableVerifies | src/mox_adv/audit.py:240-383 | Every journal reached by append and seal verifies, earlier rows are kept, and a sealed journal never changes |
| AuditJournal.SameHashSameChain | src/mox_adv/audit.py:129-149 | Two chains of one owner with the same final hash are the same rows |
| AuditJournal.TamperEvident | src/mox_adv/audit.py:385-461 | Two verifying journals with the same owner and final hash hold the same events |
| AuditJournal.AnchorPinsContent | src/mox_adv/audit.py:483-526 | A journal an anchor verifies has exactly the rows the anchor was taken from, with the anchoring signer and within the age limit |
| AuditJournal.AnchorExpiresOnAppend | src/mox_adv/audit.py:483-526 | After any further append the anchor is rejected, whatever signer and clock |
| AuditJournal.SQLiteAuditJournal.VerifyRows | src/mox_adv/audit.py:385-433 | The loop with its running previous hash accepts exactly the chained rows |
| AuditJournal.SQLiteAuditJournal.VerifyJournal | src/mox_adv/audit.py:435-461 | Chain, state row and seal are consistent |
| AuditJournal.SQLiteAuditJournal.AppendEvent | src/mox_adv/audit.py:240-337 | One row linked to the tail, or no change on a sealed or inconsistent journal |
| AuditJournal.SQLiteAuditJournal.SealJournal | src/mox_adv/audit.py:339-383 | Seals only a verifying journal, once |
| PollLease.ClaimsWhen | src/mox_adv/monitoring.py:492-542 | A poll is claimed if and only if nobody's lease runs and the interval has passed; the row it leaves |
| PollLease.HoldersActWhen | src/mox_adv/monitoring.py:544-609 | Only the claim whose lease runs extends it or completes a poll |
| PollLease.SupersededIsFenced | src/mox_adv/monitoring.py:745-757 | After a later claim was granted the earlier one can never heartbeat, persist or release again |
| PollLease.GenerationsRise | src/mox_adv/monitoring.py:492-542 | Nothing ever lowers the generation |
| PollLease.PollsAreSpaced | src/mox_adv/monitoring.py:578-609 | Over any run in which no poll is evaluated before its own claim: persisted polls have rising generations and are at least the interval apart |
| PollLease.PollsAreSpacedWhen | src/mox_adv/monitoring.py:578-609 | Over any run with any clock: the persisted polls are the interval apart if and only if at each granted persist the clock has stepped back since the claim by no more than the claim came late |
| PollLease.SteppingBackBreaksSpacing | src/mox_adv/monitoring.py:578-609 | With a clock that steps back the interval is not kept: two polls persisted at the same time |
| PollLease.PersistedIsNewest | src/mox_adv/monitoring.py:578-609 | A persisted poll belongs to the highest generation issued |
| PollLease.PollLeavesNothingHeld | src/mox_adv/monitoring.py:879-952 | A poll that was due ends with no claim held, and adds a completed poll exactly when it reports POLLED |
| PollLease.MonitoringStore.ClaimPoll | src/mox_adv/monitoring.py:492-542 | A claim is granted when none is live and the interval has passed, with the next generation |
| PollLease.MonitoringStore.HeartbeatPoll | src/mox_adv/monitoring.py:544-565 | Only the live holder extends its lease |
| PollLease.MonitoringStore.ReleasePoll | src/mox_adv/monitoring.py:567-576 | Only the holder clears the claim; the generation stays |
| PollLease.MonitoringStore.PersistPoll | src/mox_adv/monitoring.py:578-609 | Only the live holder completes a poll |
| PollLease.MonitoringScheduler.RunPoll | src/mox_adv/monitoring.py:879-952 | Lease and outcome of one poll with its heartbeats and its release on failure |
| WriteWindow.ReservesWhen | src/mox_adv/monitoring.py:773-808 | The window is taken if and only if no write is in progress and the last live window has passed |
| WriteWindow.SettlesWhen | src/mox_adv/monitoring.py:810-834 | Only the write in progress opens its window or gives it back |
| WriteWindow.WritesAreSpaced | src/mox_adv/monitoring.py:773-832 | With a nondecreasing clock consecutive applied writes are at least the window apart |
| WriteWindow.LiveWindowStands | src/mox_adv/monitoring.py:773-832 | While a window is live no reservation, settlement or release changes the gate |
| WriteWindow.OneReservation | src/mox_adv/monitoring.py:773-808 | While one reservation is in progress no other key is admitted or can release it |
| WriteWindow.DurableWriteWindowGate.ReserveWindow | src/mox_adv/monitoring.py:773-808 | Takes the gate when it is free or its window has passed |
| WriteWindow.DurableWriteWindowGate.ActivateWindow | src/mox_adv/monitoring.py:810-823 | Opens the window of the reserved key from the applied time |
| WriteWindow.DurableWriteWindowGate.ReleaseWindow | src/mox_adv/monitoring.py:825-832 | Removes only an in-progress reservation of the key |
| ModelCost.SpendIsBounded | src/mox_adv/model_cost.py:229-366 | Under every interleaving of reserve, settle, fail and synthetic rows: charged plus outstanding never exceeds the limit plus the synthetic rows |
| ModelCost.ChargedOnceAtMostReserved | src/mox_adv/model_cost.py:291-351 | A charge is final, never negative and never more than was reserved; a call is unsettled exactly while uncharged |
| ModelCost.ExhaustionIsFinal | src/mox_adv/model_cost.py:250-253 | Once the charges reach the limit no further reservation is ever handed out |
| ModelCost.PriceIsTariff | src/mox_adv/model_cost.py:379-391 | The price is linear in the tokens of either direction, and a million tokens cost the tariff of their direction in roubles |
| ModelCost.CallReservedWhen | src/mox_adv/model_cost.py:229-289 | A call is reserved if and only if its tariff is known, its identifier is new and its worst price fits under the limit |
| ModelCost.CallSettledWhen | src/mox_adv/model_cost.py:291-338 | A call is settled at its real price if and only if its usage fits and its row is still reserved; a misfit charges the whole reservation |
| ModelCost.TotalsAddUp | src/mox_adv/model_cost.py:397-422 | What each row adds to what is charged and outstanding |
| ModelCost.SyntheticRecordedWhen | src/mox_adv/model_cost.py:353-366 | Recording a synthetic cost: the exact condition |
| ModelCost.PriceIsMonotone | src/mox_adv/model_cost.py:379-391 | More tokens never cost less, and no price is negative |
| ModelCost.DurableModelCostLedger.ReserveCall | src/mox_adv/model_cost.py:229-289 | Inserts a row at the worst price when charges, holds and it fit the limit; otherwise changes nothing |
| ModelCost.DurableModelCostLedger.SettleCall | src/mox_adv/model_cost.py:291-338 | Charges the real price once; invalid metadata charges the whole reservation and is refused |
| ModelCost.DurableModelCostLedger.FailCall | src/mox_adv/model_cost.py:340-351 | Charges the whole reservation, only while it is open |
| ModelCost.DurableModelCostLedger.RecordSyntheticCost | src/mox_adv/model_cost.py:353-366 | Adds a settled synthetic row once per identifier |
| ModelCost.DurableModelCostLedger.Totals | src/mox_adv/model_cost.py:397-422 | The loop computes the charged sum, the outstanding sum and the row count |

## Left out

- SQLite itself: locking, errors of the database, schema migration, triggers, file permissions. A transaction is one step.
- Joined-string operation keys, canonical JSON, SHA-256 and HMAC: keys keep their parts, hashes and signatures keep what they were computed from, so they are injective by construction; an approval's signature is a `signed` flag.
- Two live executors of one saga: the saga theorems are for one executor with crashes (`SagaWedges.SecondExecutorCancelsClaim` says why).
- Resumption after arbitrary crashes: for crashes safety is proved, and when exactly no call can resume (`SagaWedges.PendingStuckWhen`, `SagaWedges.RestStuckWhen`).
- `ApplicationWriteBoundary`, the pre-write audit and the production pilot authority: one gate per operation that may refuse (`closed` and `blocked` for the saga, `Gates` for executions). Their order relative to the claim is kept; their contents are not.
- Draft validation beyond what the saga relies on, approval and autonomy policy tables, egress rules, trusted snapshot facts, anomaly thresholds and proposals: gates that may refuse.
- DirectAdapter.FakeDirectManagementAdapter.ApplyRequest: models the verbs the saga uses (add, get, moderate, resume, delete); update, set, suspend, archive, unarchive and bids are not called by it.
- Failure texts and reason suffixes beyond the reason code, and the result objects returned to the user interface.
- ControlState.DurableMandateAuthority.IssueMandate: does not model the maxima that policy puts on the terms, nor the mandate event log and its version counter.
- Execution timestamps and details.
- SagaStore.CampaignSagaStore.CompleteStep: does not model the optional created-objects argument, because the service never passes it.
- `mark_approval_used`, called by no path modelled here.
- PollLease.MonitoringStore.PersistPoll: does not model the snapshot versions and active proposals written in the same commit.
- GoalCleanup.FakeSitePublishAdapter.Publish: the published version is a parameter, and the comparison of the exact difference is not modelled.
- GoalStore.GoalLifecycleStore.RegisterGoalAuthority: does not model issuing and verifying the signed proof; the terms stand for it.
- Goal creation and publication through their adapters with timeouts, delivery verification and the optimization gate: the begin, complete, unknown and abort transactions are modelled, the polling around them is not.
- GoalCleanup.CleanupIsRestartable: assumes that nobody else publishes in the zone meanwhile, and that the recorded publication stands or was rolled back at the start.
- PollLease.PollsAreSpaced: assumes that a poll is evaluated no earlier than its own claim was read; `PollLease.PollsAreSpacedWhen` is the exact condition for any clock.
- WriteWindow.WritesAreSpaced: assumes a nondecreasing clock, as the source does.
- ModelCost.SpendIsBounded: exact reals instead of decimals with 28 digits, and reservations that the ledger itself handed out.
- Commands.RoundHalfUp: exact integers instead of decimals with 28 digits.
- KillSwitch.NothingSentAgainstSignal: a sidecar read made inside a transaction of the main database is one event with it; the reads of the last check, which are outside, are separate events.
- SwitchOperators.EngagedUntilReleased: states the checks that read the sidecar; the mandate path's reservation reads only the rows, and its later checks refuse.
- Recovery.RecoveryTellsTheTruth: one executor, and nobody else changes the value at the target meanwhile; `LateCalls.LateCallWhen` says what several executors can do.
- Threads, sleeps and override values of the fakes, except as faults; keychain, sockets, browser automation, command line, user interface, sites, evidence bundles and reports.
