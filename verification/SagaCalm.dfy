/** The uninterrupted fault-free run of a new saga completes all eight steps, and what it leaves in the adapter. */
module SagaCalm {
  import opened Basics
  import opened CampaignTypes
  import opened DirectAdapter
  import opened SagaStore
  import opened SagaService
  import opened SagaSafety
  import opened SagaInvariant
  import opened SagaEvents
  import opened SagaRuns
  import opened SagaRefinement
  import opened SagaTracks

  /** The five objects of one campaign. */
  datatype Refs = Refs(campaign: ObjectRef, group: ObjectRef, adA: ObjectRef, adB: ObjectRef, keyword: ObjectRef)

  predicate GoodRefs(refs: Refs) {
    && refs.campaign.service == Campaigns && refs.group.service == AdGroups && refs.keyword.service == Keywords
    && refs.adA.service == Ads && refs.adB.service == Ads && refs.adA != refs.adB
  }

  function CreatedAt(refs: Refs, step: Step): seq<Created> {
    match step
    case CampaignAdd => [Created(refs.campaign, "UNIFIED_CAMPAIGN")]
    case AdGroupAdd => [Created(refs.group, "UNIFIED_AD_GROUP")]
    case AdsAdd => [Created(refs.adA, "TEXT_AD"), Created(refs.adB, "TEXT_AD")]
    case KeywordAdd => [Created(refs.keyword, "KEYWORD")]
    case _ => []
  }

  /** The created-object rows after `n` completed steps. */
  function RowsThrough(refs: Refs, n: nat): seq<ObjectRow>
    requires n <= |SAGA_STEPS|
  {
    if n == 0 then [] else RowsThrough(refs, n - 1) + RowsOf(CreatedAt(refs, SAGA_STEPS[n - 1]), SAGA_STEPS[n - 1])
  }

  predicate Contains(a: Adapter, ref: ObjectRef, item: DirectObject) {
    ref in a.objects && a.objects[ref] == item
  }

  /** The adapter's objects after `n` completed steps. */
  predicate Published(a: Adapter, draft: CampaignDraft, refs: Refs, n: nat)
    requires |draft.group.ads| == 2
  {
    var adState := if n >= 5 then Moderation else Draft;
    && (n >= 1 ==> Contains(a, refs.campaign,
                            DirectObject("UNIFIED_CAMPAIGN", if n >= 7 then On else Suspended, CampaignContent(draft.terms))))
    && (n >= 2 ==> Contains(a, refs.group,
                            DirectObject("UNIFIED_AD_GROUP", On,
                                         GroupContent(refs.campaign, draft.group.name, draft.group.negativeKeywords))))
    && (n >= 3 ==> Contains(a, refs.adA, DirectObject("TEXT_AD", adState, AdContent(refs.group, draft.group.ads[0]))))
    && (n >= 3 ==> Contains(a, refs.adB, DirectObject("TEXT_AD", adState, AdContent(refs.group, draft.group.ads[1]))))
    && (n >= 4 ==> Contains(a, refs.keyword, DirectObject("KEYWORD", Suspended, KeywordContent(refs.group, draft.group.keyword))))
  }

  ghost predicate Healthy(sys: System, plan: Plan, refs: Refs, n: nat) {
    && n <= |SAGA_STEPS|
    && AtRest(sys, plan) && ValidDraft(plan.request.draft) && StepsDone(sys, plan) == n && GoodRefs(refs)
    && (n == 0 ==> CanConsume(sys.store, plan))
    && Record(sys, plan).objects == RowsThrough(refs, n)
    && Published(sys.adapter, plan.request.draft, refs, n)
  }

  // ---------- what the rows say ----------

  /** The created objects of one kind after `n` steps. */
  function RefsAfter(refs: Refs, n: nat, service: Service): seq<ObjectRef> {
    match service
    case Campaigns => if n >= 1 then [refs.campaign] else []
    case AdGroups => if n >= 2 then [refs.group] else []
    case Ads => if n >= 3 then [refs.adA, refs.adB] else []
    case Keywords => if n >= 4 then [refs.keyword] else []
  }

  lemma {:induction false} LiveConcat(first: seq<ObjectRow>, second: seq<ObjectRow>)
    ensures Live(first + second) == Live(first) + Live(second)
  {
    if first == [] {
      assert first + second == second;
    } else {
      LiveConcat(first[1..], second);
      assert (first + second)[1..] == first[1..] + second;
    }
  }

  lemma {:induction false} OfServiceConcat(first: seq<Created>, second: seq<Created>, service: Service)
    ensures OfService(first + second, service) == OfService(first, service) + OfService(second, service)
  {
    if first == [] {
      assert first + second == second;
    } else {
      var rest := first[1..];
      assert first + second == [first[0]] + (rest + second) && first == [first[0]] + rest;
      OfServiceFirst(first[0], rest + second, service);
      OfServiceFirst(first[0], rest, service);
      OfServiceConcat(rest, second, service);
    }
  }

  lemma {:induction false} OfServiceFirst(first: Created, rest: seq<Created>, service: Service)
    ensures OfService([first] + rest, service) == (if first.ref.service == service then [first.ref] else []) + OfService(rest, service)
  {
    assert ([first] + rest)[1..] == rest;
  }

  lemma {:induction false} LiveOfNew(created: seq<Created>, step: Step)
    ensures Live(RowsOf(created, step)) == created
  {
    if created != [] {
      LiveOfNew(created[1..], step);
      assert RowsOf(created, step)[1..] == RowsOf(created[1..], step);
    }
  }

  lemma {:induction false} RowsLive(refs: Refs, n: nat, service: Service)
    requires n <= |SAGA_STEPS| && GoodRefs(refs)
    ensures OfService(Live(RowsThrough(refs, n)), service) == RefsAfter(refs, n, service)
  {
    if n > 0 {
      var step := SAGA_STEPS[n - 1];
      var created := CreatedAt(refs, step);
      RowsLive(refs, n - 1, service);
      LiveConcat(RowsThrough(refs, n - 1), RowsOf(created, step));
      LiveOfNew(created, step);
      OfServiceConcat(Live(RowsThrough(refs, n - 1)), created, service);
      CreatedOfKind(refs, n - 1, service);
      hide Live, OfService, RowsThrough, CreatedAt;
    }
  }

  lemma {:induction false} CreatedOfKind(refs: Refs, n: nat, service: Service)
    requires n < |SAGA_STEPS| && GoodRefs(refs)
    ensures RefsAfter(refs, n, service) + OfService(CreatedAt(refs, SAGA_STEPS[n]), service) == RefsAfter(refs, n + 1, service)
  {
    var created := CreatedAt(refs, SAGA_STEPS[n]);
    if created != [] {
      assert created == [created[0]] + created[1..];
      OfServiceFirst(created[0], created[1..], service);
      if n == 2 {
        assert created[1..] == [created[1]] + [];
        OfServiceFirst(created[1], [], service);
      }
    }
  }

  // ---------- the operation of each step ----------

  /** The operation a handler builds is always the one the stored plan expects. */
  lemma HandlerMatchesPlan(record: SagaRecord, step: Step)
    ensures var built := HandlerRequest(record.plan, Live(record.objects), step);
            var planned := ExpectedRequest(record, step);
            && (built.Ok? ==> planned == built)
            && (planned.Ok? ==> built == planned || (step == ModerationSubmit && OfService(Live(record.objects), Ads) == []))
  {
    hide Live, OfService;
  }

  function StepAt(n: nat): Step
    requires n < |SAGA_STEPS|
  {
    SAGA_STEPS[n]
  }

  /** Nothing refuses a fault-free write of the next step, and the adapter applies it. */
  lemma CalmSends(sys: System, plan: Plan, n: nat, request: DirectRequest)
    requires n < |SAGA_STEPS| && AtRest(sys, plan) && StepsDone(sys, plan) == n && IsWrite(StepAt(n))
    requires HandlerRequest(plan, Live(Record(sys, plan).objects), StepAt(n)) == Ok(request)
    requires request.verb != Add ==> forall id <- IdsOf(request.payload) :: Owned(sys.store, request.run, id)
    requires Apply(map[], sys.adapter, request).outcome.Answered?
    ensures BeginStep(Record(sys, plan), StepAt(n)).Ok?
    ensures var sent := Send(CALM, sys, request);
            var effect := Apply(map[], sys.adapter, request);
            var record := Record(sys, plan);
            && sent.1 == effect.outcome
            && sent.0.adapter.objects == effect.objects
            && sent.0.store == Put(sys.store, plan.request.execution,
                                   record.(dispatches := record.dispatches + [DispatchRow(n, StepAt(n), request, false)]))
  {
    hide SystemOk, Apply, Live, ExpectedRequest, HandlerRequest, NothingPending, Owned, Shaped, Lockstep, RowsKnown, Accounted, Truthful,
         RepliesFit, FirstPending, HasDispatch;
    var record := Record(sys, plan);
    OrdinalOf(n);
    SagaParts(sys, plan);
    PendingFirst(record);
    NextIsDispatchedIfPending(record, StepAt(n));
    HandlerMatchesPlan(record, StepAt(n));
    AddRequestShape(plan, Live(record.objects), StepAt(n));
    NotYetAnswered(sys, plan, StepAt(n));
    CalmInvokes(sys.adapter, request);
    assert ClaimRecord(record, request, true)
        == (record.(dispatches := record.dispatches + [DispatchRow(n, StepAt(n), request, false)]), Ok(true));
    hide ClaimRecord, CancelClaim, Invoke;
  }

  lemma CalmInvokes(a: Adapter, request: DirectRequest)
    requires request.key !in a.results && Apply(map[], a, request).outcome.Answered?
    ensures var r := Invoke(CALM.faults, a, request);
            var effect := Apply(map[], a, request);
            && r.1 == effect.outcome && r.0.objects == effect.objects
            && (effect.outcome.reply.service == request.service && effect.outcome.reply.verb == request.verb)
  {
    hide AddAll, MoveAll, ReadAll, NewContents, NewType, NewState, CreatedOf;
  }

  // ---------- the add steps ----------

  function NextRef(a: Adapter, service: Service, offset: nat): ObjectRef {
    ObjectRef(service, LastId(a.sequence, service) + 1 + offset)
  }

  /** The references with the objects the next step will create. */
  function Grown(sys: System, refs: Refs, n: nat): Refs {
    if n == 0 then refs.(campaign := NextRef(sys.adapter, Campaigns, 0))
    else if n == 1 then refs.(group := NextRef(sys.adapter, AdGroups, 0))
    else if n == 2 then refs.(adA := NextRef(sys.adapter, Ads, 0), adB := NextRef(sys.adapter, Ads, 1))
    else if n == 3 then refs.(keyword := NextRef(sys.adapter, Keywords, 0))
    else refs
  }

  ghost predicate BelowCounters(a: Adapter) {
    forall ref :: ref in a.objects ==> ref.number <= LastId(a.sequence, ref.service)
  }

  /** What an add does to an adapter whose counters are ahead of its objects. */
  lemma AddApplies(a: Adapter, request: DirectRequest)
    requires BelowCounters(a) && request.verb == Add
    ensures var effect := Apply(map[], a, request);
            var contents := NewContents(request.payload);
            var actualType, state := NewType(map[], request.service, request.payload), NewState(request.service, request.payload);
            && effect.outcome.Answered?
            && |effect.outcome.reply.created| == |contents|
            && (forall i :: 0 <= i < |contents| ==>
                  && effect.outcome.reply.created[i] == Created(NextRef(a, request.service, i), actualType)
                  && NextRef(a, request.service, i) in effect.objects
                  && effect.objects[NextRef(a, request.service, i)] == DirectObject(actualType, state, contents[i]))
            && (forall ref :: ref in a.objects ==> ref in effect.objects && effect.objects[ref] == a.objects[ref])
  {
    hide AddAll, NewContents, NewType, NewState;
    var last := LastId(a.sequence, request.service);
    var contents := NewContents(request.payload);
    var actualType, state := NewType(map[], request.service, request.payload), NewState(request.service, request.payload);
    AddAllIsFresh(a.objects, last, request.service, actualType, state, contents);
    var added := AddAll(a.objects, last, request.service, actualType, state, contents);
    assert forall i :: 0 <= i < |contents| ==> added.1[i].ref == NextRef(a, request.service, i);
  }

  /** The add request of step `n`, built from the references of the earlier steps. */
  function AddRequest(plan: Plan, refs: Refs, n: nat): DirectRequest
    requires n < 4
  {
    var draft, run, key := plan.request.draft, plan.request.run, StepKey(plan.request.execution, StepAt(n));
    if n == 0 then DirectRequest(run, key, Campaigns, Add, CampaignPayload(draft.campaignType, Suspended, draft.terms))
    else if n == 1 then
      DirectRequest(run, key, AdGroups, Add, GroupPayload(refs.campaign, draft.group.name, draft.group.negativeKeywords))
    else if n == 2 then DirectRequest(run, key, Ads, Add, AdsPayload(refs.group, draft.group.ads))
    else DirectRequest(run, key, Keywords, Add, KeywordPayload(refs.group, draft.group.keyword))
  }

  lemma {:induction false} AddRequestBuilt(plan: Plan, refs: Refs, n: nat)
    requires n < 4 && GoodRefs(refs)
    ensures HandlerRequest(plan, Live(RowsThrough(refs, n)), StepAt(n)) == Ok(AddRequest(plan, refs, n))
  {
    hide Live, OfService, RowsThrough;
    RowsLive(refs, n, Campaigns);
    RowsLive(refs, n, AdGroups);
  }

  lemma NewContentsAre(plan: Plan, refs: Refs, n: nat)
    requires n < 4 && ValidDraft(plan.request.draft)
    ensures var request, contents := AddRequest(plan, refs, n), NewContents(AddRequest(plan, refs, n).payload);
            && request.verb == Add
            && |contents| == (if n == 2 then 2 else 1)
            && contents[0] == (if n == 0 then CampaignContent(plan.request.draft.terms)
                               else if n == 1 then GroupContent(refs.campaign, plan.request.draft.group.name, plan.request.draft.group.negativeKeywords)
                               else if n == 2 then AdContent(refs.group, plan.request.draft.group.ads[0])
                               else KeywordContent(refs.group, plan.request.draft.group.keyword))
            && (n == 2 ==> contents[1] == AdContent(refs.group, plan.request.draft.group.ads[1]))
  {
  }

  /** A fault-free add answers with the planned objects. */
  lemma CalmCreates(sys: System, plan: Plan, refs: Refs, n: nat)
    requires n < 4 && ValidDraft(plan.request.draft) && BelowCounters(sys.adapter)
    ensures var effect := Apply(map[], sys.adapter, AddRequest(plan, refs, n));
            effect.outcome.Answered? && effect.outcome.reply.created == CreatedAt(Grown(sys, refs, n), StepAt(n))
  {
    hide Apply, NewContents, NextRef;
    AddApplies(sys.adapter, AddRequest(plan, refs, n));
    NewContentsAre(plan, refs, n);
  }

  lemma CalmPublishes(sys: System, plan: Plan, refs: Refs, n: nat)
    requires n < 4 && ValidDraft(plan.request.draft) && BelowCounters(sys.adapter)
    requires Published(sys.adapter, plan.request.draft, refs, n)
    ensures var effect := Apply(map[], sys.adapter, AddRequest(plan, refs, n));
            Published(sys.adapter.(objects := effect.objects), plan.request.draft, Grown(sys, refs, n), n + 1)
  {
    hide Apply, NewContents, NextRef;
    AddApplies(sys.adapter, AddRequest(plan, refs, n));
    NewContentsAre(plan, refs, n);
  }

  /** Registering and closing an answered add step succeeds when the objects are new to the index. */
  lemma CalmCloses(sys: System, plan: Plan, step: Step, created: seq<Created>, before: SagaRecord, request: DirectRequest)
    requires Running(sys.store, plan) && IsAdd(step) && |before.steps| == Ordinal(step)
    requires Record(sys, plan) == before.(dispatches := before.dispatches + [DispatchRow(Ordinal(step), step, request, false)])
    requires created != [] && DistinctRefs(created) && RefsOf(created) * sys.store.index == {} && TypesMatch(created, step)
    ensures var r := CompleteAdd(sys, plan, step, created);
            && r.1.Done? && r.0.adapter == sys.adapter
            && Record(r.0, plan).objects == before.objects + RowsOf(created, step)
  {
    hide TypesMatch, DistinctRefs, RefsOf, RowsOf, CloseDispatch;
    var record := Record(sys, plan);
    assert Last(record.dispatches) in record.dispatches;
  }

  lemma NewRefsAreNew(sys: System, refs: Refs, n: nat)
    requires n < 4 && Numbered(sys)
    ensures var created := CreatedAt(Grown(sys, refs, n), StepAt(n));
            created != [] && DistinctRefs(created) && RefsOf(created) * sys.store.index == {} && TypesMatch(created, StepAt(n))
  {
  }

  lemma {:induction false} HealthyParts(sys: System, plan: Plan, refs: Refs, n: nat)
    requires Healthy(sys, plan, refs, n)
    ensures AtRest(sys, plan) && Numbered(sys) && BelowCounters(sys.adapter) && Running(sys.store, plan)
    ensures StepsDone(sys, plan) == n
    ensures n == 0 ==> CanConsume(sys.store, plan)
    ensures ValidDraft(plan.request.draft) && GoodRefs(refs)
    ensures Record(sys, plan).objects == RowsThrough(refs, n) && Published(sys.adapter, plan.request.draft, refs, n)
  {
    hide SystemOk, Published, RowsThrough, CanConsume, NothingPending;
    SystemParts(sys);
  }

  /** The published objects depend on the adapter's objects only. */
  lemma PublishedIn(a: Adapter, b: Adapter, draft: CampaignDraft, refs: Refs, n: nat)
    requires |draft.group.ads| == 2 && a.objects == b.objects && Published(a, draft, refs, n)
    ensures Published(b, draft, refs, n)
  {
  }

  lemma HealthyAdd(sys: System, plan: Plan, refs: Refs, n: nat)
    requires Healthy(sys, plan, refs, n) && n < 4
    ensures var r := RunStep(CALM, sys, plan, StepAt(n));
            r.1.Done? && Healthy(r.0, plan, Grown(sys, refs, n), n + 1)
  {
    hide SystemOk, Published, RowsThrough, NothingPending, Apply, Live, HandlerRequest, BeginStep, Send, CompleteAdd, CreatedAt,
         TypesMatch, DistinctRefs, RefsOf, ValidDraft, AddRequest, CanConsume, Numbered, BelowCounters, AtRest, StepsDone;
    HealthyParts(sys, plan, refs, n);
    var step, request, grown := StepAt(n), AddRequest(plan, refs, n), Grown(sys, refs, n);
    var created := CreatedAt(grown, step);
    AddRequestBuilt(plan, refs, n);
    CalmCreates(sys, plan, refs, n);
    NewRefsAreNew(sys, refs, n);
    NewContentsAre(plan, refs, n);
    CalmSends(sys, plan, n, request);
    var sent := Send(CALM, sys, request);
    AddRequestShape(plan, Live(RowsThrough(refs, n)), step);
    SendKeepsRunning(CALM, sys, plan, request);
    var used := if n == 0 then sent.0.(store := ConsumeAuthority(sent.0.store, plan).0) else sent.0;
    StepsDoneIs(sys, plan);
    OrdinalOf(n);
    SameGrantsConsume(sys, sent.0, plan);
    CalmCloses(used, plan, step, created, Record(sys, plan), request);
    assert RunStep(CALM, sys, plan, step) == CompleteAdd(used, plan, step, created);
    StepRests(CALM, sys, plan, step);
    var r := RunStep(CALM, sys, plan, step).0;
    assert Record(r, plan).objects == RowsThrough(grown, n + 1) by { GrownRows(sys, refs, n); }
    assert Published(r.adapter, plan.request.draft, grown, n + 1) by {
      DraftHasTwoAds(plan.request.draft);
      CalmPublishes(sys, plan, refs, n);
      PublishedIn(sys.adapter.(objects := Apply(map[], sys.adapter, request).objects), r.adapter, plan.request.draft, grown, n + 1);
    }
    GrownGood(sys, refs, n);
    HealthyFrom(r, plan, grown, n + 1);
  }

  lemma {:induction false} HealthyFrom(sys: System, plan: Plan, refs: Refs, n: nat)
    requires 0 < n <= |SAGA_STEPS| && AtRest(sys, plan) && ValidDraft(plan.request.draft) && StepsDone(sys, plan) == n && GoodRefs(refs)
    requires Record(sys, plan).objects == RowsThrough(refs, n) && Published(sys.adapter, plan.request.draft, refs, n)
    ensures Healthy(sys, plan, refs, n)
  {
    hide SystemOk, Published, RowsThrough, NothingPending;
  }

  lemma DraftHasTwoAds(draft: CampaignDraft)
    requires ValidDraft(draft)
    ensures |draft.group.ads| == 2
  {
  }

  lemma SameGrantsConsume(sys: System, later: System, plan: Plan)
    requires later.store.reservations == sys.store.reservations && later.store.approvals == sys.store.approvals
    requires Running(later.store, plan)
    ensures CanConsume(sys.store, plan) ==> ConsumeAuthority(later.store, plan).1.Ok?
    ensures var used := ConsumeAuthority(later.store, plan).0; Running(used, plan) && used.sagas == later.store.sagas && used.index == later.store.index
  {
  }

  lemma GrownRows(sys: System, refs: Refs, n: nat)
    requires n < 4
    ensures RowsThrough(Grown(sys, refs, n), n + 1)
         == RowsThrough(refs, n) + RowsOf(CreatedAt(Grown(sys, refs, n), StepAt(n)), StepAt(n))
  {
    RowsAgree(refs, Grown(sys, refs, n), n);
  }

  lemma {:induction false} RowsAgree(refs: Refs, other: Refs, n: nat)
    requires n <= |SAGA_STEPS|
    requires n >= 1 ==> refs.campaign == other.campaign
    requires n >= 2 ==> refs.group == other.group
    requires n >= 3 ==> refs.adA == other.adA && refs.adB == other.adB
    requires n >= 4 ==> refs.keyword == other.keyword
    ensures RowsThrough(refs, n) == RowsThrough(other, n)
  {
    if n > 0 {
      RowsAgree(refs, other, n - 1);
    }
  }

  lemma GrownGood(sys: System, refs: Refs, n: nat)
    requires GoodRefs(refs)
    ensures GoodRefs(Grown(sys, refs, n))
  {
  }

  // ---------- the steps that move or read objects ----------

  lemma {:induction false} RowsOwned(refs: Refs, n: nat, service: Service)
    requires n <= |SAGA_STEPS| && GoodRefs(refs)
    ensures forall ref :: ref in RefsAfter(refs, n, service) ==> Owns(RowsThrough(refs, n), ref)
  {
    if n > 0 {
      RowsOwned(refs, n - 1, service);
      var before, step := RowsThrough(refs, n - 1), SAGA_STEPS[n - 1];
      var created := CreatedAt(refs, step);
      OwnsMore(before, created, step);
      assert forall ref :: ref in RefsAfter(refs, n, service) ==>
               ref in RefsAfter(refs, n - 1, service) || Created(ref, CreatedAt(refs, step)[0].actualType) in created;
    }
  }

  lemma OwnsMore(rows: seq<ObjectRow>, created: seq<Created>, step: Step)
    ensures forall ref :: Owns(rows, ref) ==> Owns(rows + RowsOf(created, step), ref)
    ensures forall c :: c in created ==> Owns(rows + RowsOf(created, step), c.ref)
  {
    var all := rows + RowsOf(created, step);
    forall ref | Owns(rows, ref) ensures Owns(all, ref) {
      var row :| row in rows && row.created.ref == ref && !row.compensated;
      assert row in all;
    }
    forall c | c in created ensures Owns(all, c.ref) {
      var i :| 0 <= i < |created| && created[i] == c;
      assert RowsOf(created, step)[i] in all;
    }
  }

  lemma HealthyOwns(sys: System, plan: Plan, refs: Refs, n: nat, service: Service)
    requires Healthy(sys, plan, refs, n)
    ensures Running(sys.store, plan)
    ensures LiveRefs(sys, plan, service) == RefsAfter(refs, n, service)
    ensures forall ref :: ref in RefsAfter(refs, n, service) ==> Owned(sys.store, plan.request.run, ref)
  {
    hide SystemOk, Published, RowsThrough, CanConsume, NothingPending, Live, OfService, Owns;
    RowsLive(refs, n, service);
    RowsOwned(refs, n, service);
  }

  /** Closing the next step succeeds: a write is pending, and a read needs no dispatch. */
  lemma CalmFinishes(sys: System, plan: Plan, step: Step, response: Response)
    requires Running(sys.store, plan) && |Record(sys, plan).steps| == Ordinal(step)
    requires IsWrite(step) ==> IsPending(Record(sys, plan).dispatches, step)
    ensures var r := CloseStep(sys, plan, step, response);
            r.1.Done? && r.0.adapter == sys.adapter && Record(r.0, plan).objects == Record(sys, plan).objects
  {
    hide CloseDispatch, IsPending;
  }

  /** A fault-free move answers with every object in its new state and touches nothing else. */
  lemma CalmMoves(a: Adapter, request: DirectRequest, state: DirectState)
    requires (request.verb == Moderate && state == Moderation) || (request.verb == Resume && state == On)
    requires forall id :: id in IdsOf(request.payload) ==> id in a.objects
    ensures var effect := Apply(map[], a, request);
            && effect.outcome.Answered? && |effect.outcome.reply.readback| == |IdsOf(request.payload)|
            && (forall i :: 0 <= i < |effect.outcome.reply.readback| ==> effect.outcome.reply.readback[i].item.state == state)
            && effect.objects.Keys == a.objects.Keys
            && (forall ref :: ref in a.objects ==>
                  effect.objects[ref] == if ref in IdsOf(request.payload) then a.objects[ref].(state := state) else a.objects[ref])
  {
    hide MoveAll, IdsOf;
    MoveAllMoves(a.objects, IdsOf(request.payload), state);
  }

  /** The move request of step `n`: the ads go to moderation, the campaign is launched. */
  function MoveRequest(plan: Plan, refs: Refs, n: nat): DirectRequest
    requires n < |SAGA_STEPS|
  {
    var run, key := plan.request.run, StepKey(plan.request.execution, StepAt(n));
    if n == 4 then DirectRequest(run, key, Ads, Moderate, IdsPayload([refs.adA, refs.adB]))
    else DirectRequest(run, key, Campaigns, Resume, IdPayload(refs.campaign))
  }

  lemma {:induction false} MoveRequestBuilt(plan: Plan, refs: Refs, n: nat)
    requires (n == 4 || n == 6) && GoodRefs(refs)
    ensures HandlerRequest(plan, Live(RowsThrough(refs, n)), StepAt(n)) == Ok(MoveRequest(plan, refs, n))
  {
    hide Live, OfService, RowsThrough;
    RowsLive(refs, n, Campaigns);
    RowsLive(refs, n, Ads);
  }

  lemma MovePublishes(sys: System, plan: Plan, refs: Refs, n: nat)
    requires (n == 4 || n == 6) && |plan.request.draft.group.ads| == 2 && GoodRefs(refs)
    requires Published(sys.adapter, plan.request.draft, refs, n)
    ensures var effect := Apply(map[], sys.adapter, MoveRequest(plan, refs, n));
            && effect.outcome.Answered?
            && effect.outcome.reply.readback != []
            && effect.outcome.reply.readback[0].item.state == (if n == 4 then Moderation else On)
            && Published(sys.adapter.(objects := effect.objects), plan.request.draft, refs, n + 1)
  {
    hide Apply;
    CalmMoves(sys.adapter, MoveRequest(plan, refs, n), if n == 4 then Moderation else On);
  }

  lemma MoveAllowed(sys: System, plan: Plan, refs: Refs, n: nat)
    requires Healthy(sys, plan, refs, n) && (n == 4 || n == 6)
    ensures MoveGuard(sys, plan, StepAt(n), MoveRequest(plan, refs, n))
    ensures forall id :: id in IdsOf(MoveRequest(plan, refs, n).payload) ==> Owned(sys.store, plan.request.run, id)
  {
    hide Healthy, Owned, Published, RowsThrough, ValidDraft, Running, LiveRefs, BelowCounters, Numbered, AtRest, StepsDone, Live;
    HealthyParts(sys, plan, refs, n);
    DraftHasTwoAds(plan.request.draft);
    MoveStates(sys.adapter, plan, refs, n);
    HealthyOwns(sys, plan, refs, n, if n == 4 then Ads else Campaigns);
  }

  lemma MoveStates(a: Adapter, plan: Plan, refs: Refs, n: nat)
    requires (n == 4 || n == 6) && |plan.request.draft.group.ads| == 2 && Published(a, plan.request.draft, refs, n)
    ensures forall id :: id in IdsOf(MoveRequest(plan, refs, n).payload) ==>
              id in a.objects && a.objects[id].state == (if n == 4 then Draft else Suspended)
  {
  }

  lemma HealthyMove(sys: System, plan: Plan, refs: Refs, n: nat)
    requires Healthy(sys, plan, refs, n) && (n == 4 || n == 6)
    ensures var r := RunStep(CALM, sys, plan, StepAt(n));
            r.1.Done? && Healthy(r.0, plan, refs, n + 1)
  {
    hide SystemOk, Published, RowsThrough, NothingPending, Apply, Live, HandlerRequest, BeginStep, Send, CloseStep, CreatedAt,
         RunStep, MoveGuard, ValidDraft, CanConsume, Numbered, BelowCounters, AtRest, StepsDone;
    HealthyParts(sys, plan, refs, n);
    DraftHasTwoAds(plan.request.draft);
    var step, request := StepAt(n), MoveRequest(plan, refs, n);
    MoveRequestBuilt(plan, refs, n);
    MoveAllowed(sys, plan, refs, n);
    MovePublishes(sys, plan, refs, n);
    CalmSends(sys, plan, n, request);
    var sent := Send(CALM, sys, request);
    MoveStepIs(CALM, sys, plan, step, request);
    StepsDoneIs(sys, plan);
    OrdinalOf(n);
    assert Last(Record(sent.0, plan).dispatches) in Record(sent.0, plan).dispatches;
    CalmFinishes(sent.0, plan, step, if n == 4 then States(StatesOf(sent.1.reply.readback)) else States([On]));
    StepRests(CALM, sys, plan, step);
    var r := RunStep(CALM, sys, plan, step).0;
    RowsSame(refs, n);
    PublishedIn(sys.adapter.(objects := Apply(map[], sys.adapter, request).objects), r.adapter, plan.request.draft, refs, n + 1);
    HealthyFrom(r, plan, refs, n + 1);
  }

  lemma RowsSame(refs: Refs, n: nat)
    requires 4 <= n < |SAGA_STEPS|
    ensures RowsThrough(refs, n + 1) == RowsThrough(refs, n)
  {
    assert RowsOf([], StepAt(n)) == [];
  }

  lemma CalmReads(sys: System, run: string, service: Service, ids: seq<ObjectRef>)
    requires SystemOk(sys) && ids != []
    requires forall id :: id in ids ==> Owned(sys.store, run, id) && id in sys.adapter.objects
    ensures var r := Read(CALM, sys, run, service, ids);
            && SystemOk(r.0) && r.0.store == sys.store && r.0.adapter.objects == sys.adapter.objects
            && r.1.Answered? && |r.1.reply.readback| == |ids|
            && forall i :: 0 <= i < |ids| ==> r.1.reply.readback[i] == Seen(ids[i], sys.adapter.objects[ids[i]])
  {
    ReadKeeps(CALM, sys, run, service, ids);
    ReadNotRemembered(sys, ReadRequest(run, service, ids).key);
    hide SystemOk, Owned;
  }

  lemma ReadNotRemembered(sys: System, key: OpKey)
    requires SystemOk(sys) && key.RunKey?
    ensures key !in sys.adapter.results
  {
    hide SagaOk, Keyed, GrantsBound, Numbered, Times;
  }

  lemma HealthyModeration(sys: System, plan: Plan, refs: Refs)
    requires Healthy(sys, plan, refs, 5)
    ensures var r := RunStep(CALM, sys, plan, ModerationReadback);
            r.1.Done? && Healthy(r.0, plan, refs, 6)
  {
    hide SystemOk, RowsThrough, NothingPending, Live, OfService, BeginStep, Read, CloseStep, Owned,
         ValidDraft, CanConsume, Numbered, BelowCounters, StepsDone;
    HealthyParts(sys, plan, refs, 5);
    DraftHasTwoAds(plan.request.draft);
    HealthyOwns(sys, plan, refs, 5, Ads);
    StepsDoneIs(sys, plan);
    RestBegins(sys, plan, ModerationReadback);
    CalmReads(sys, plan.request.run, Ads, [refs.adA, refs.adB]);
    var read := Read(CALM, sys, plan.request.run, Ads, [refs.adA, refs.adB]);
    CalmFinishes(read.0, plan, ModerationReadback, States(StatesOf(read.1.reply.readback)));
    StepRests(CALM, sys, plan, ModerationReadback);
    RowsSame(refs, 5);
    PublishedIn(sys.adapter, RunStep(CALM, sys, plan, ModerationReadback).0.adapter, plan.request.draft, refs, 6);
    HealthyFrom(RunStep(CALM, sys, plan, ModerationReadback).0, plan, refs, 6);
  }

  lemma RestBegins(sys: System, plan: Plan, step: Step)
    requires AtRest(sys, plan) && StepsDone(sys, plan) == Ordinal(step)
    ensures BeginStep(Record(sys, plan), step).Ok?
  {
    hide SystemOk, Shaped, Lockstep, RowsKnown, Accounted, Truthful, RepliesFit, FirstPending;
    SagaParts(sys, plan);
    PendingFirst(Record(sys, plan));
  }

  lemma PublishedMatches(a: Adapter, draft: CampaignDraft, refs: Refs)
    requires ValidDraft(draft) && Published(a, draft, refs, 7)
    ensures ReadbackMatches(draft, [Seen(refs.campaign, a.objects[refs.campaign])], [Seen(refs.group, a.objects[refs.group])],
                            [Seen(refs.adA, a.objects[refs.adA]), Seen(refs.adB, a.objects[refs.adB])],
                            [Seen(refs.keyword, a.objects[refs.keyword])])
  {
    AdsPublished(a, draft, refs);
    hide AdsMatch, ValidDraft;
  }

  lemma AdsPublished(a: Adapter, draft: CampaignDraft, refs: Refs)
    requires ValidDraft(draft) && Published(a, draft, refs, 7)
    ensures AdsMatch(draft, refs.group, [Seen(refs.adA, a.objects[refs.adA]), Seen(refs.adB, a.objects[refs.adB])])
  {
    var copies := draft.group.ads;
    var ads := [Seen(refs.adA, a.objects[refs.adA]), Seen(refs.adB, a.objects[refs.adB])];
    var seen := set seen | seen in ads && seen.item.content.AdContent? :: seen.item.content.copy.variantId;
    var wanted := set copy | copy in copies :: copy.variantId;
    assert ads[0] in ads && ads[1] in ads && copies[0] in copies && copies[1] in copies;
    assert seen == {copies[0].variantId, copies[1].variantId};
    assert wanted == {copies[0].variantId, copies[1].variantId};
  }

  lemma HealthyFull(sys: System, plan: Plan, refs: Refs)
    requires Healthy(sys, plan, refs, 7)
    ensures var r := RunStep(CALM, sys, plan, FullReadback);
            r.1.Done? && Healthy(r.0, plan, refs, 8)
  {
    hide SystemOk, RowsThrough, NothingPending, Live, OfService, BeginStep, Read, CloseStep, Owned, ReadbackMatches, SeenRefs,
         ValidDraft, CanConsume, Numbered, BelowCounters, StepsDone;
    HealthyParts(sys, plan, refs, 7);
    DraftHasTwoAds(plan.request.draft);
    StepsDoneIs(sys, plan);
    RestBegins(sys, plan, FullReadback);
    FullReadDone(sys, plan, refs);
    StepRests(CALM, sys, plan, FullReadback);
    RowsSame(refs, 7);
    PublishedIn(sys.adapter, RunStep(CALM, sys, plan, FullReadback).0.adapter, plan.request.draft, refs, 8);
    HealthyFrom(RunStep(CALM, sys, plan, FullReadback).0, plan, refs, 8);
  }

  ghost predicate Readable(sys: System, plan: Plan, service: Service, ids: seq<ObjectRef>) {
    && Running(sys.store, plan) && LiveRefs(sys, plan, service) == ids && ids != []
    && forall id :: id in ids ==> Owned(sys.store, plan.request.run, id) && id in sys.adapter.objects
  }

  lemma CalmReadsLive(sys: System, now: System, plan: Plan, service: Service, ids: seq<ObjectRef>)
    requires Readable(sys, plan, service, ids)
    requires SystemOk(now) && now.store == sys.store && now.adapter.objects == sys.adapter.objects
    ensures var r := Read(CALM, now, plan.request.run, service, LiveRefs(sys, plan, service));
            && SystemOk(r.0) && r.0.store == sys.store && r.0.adapter.objects == sys.adapter.objects
            && r.1.Answered? && |r.1.reply.readback| == |ids|
            && forall i :: 0 <= i < |ids| ==> r.1.reply.readback[i] == Seen(ids[i], sys.adapter.objects[ids[i]])
  {
    hide SystemOk, Owned, Live, OfService, Read, Loaded;
    CalmReads(now, plan.request.run, service, ids);
  }

  lemma ReadsDone(sys: System, plan: Plan, refs: Refs)
    requires SystemOk(sys) && Running(sys.store, plan) && |Record(sys, plan).steps| == 7
    requires Readable(sys, plan, Campaigns, [refs.campaign]) && Readable(sys, plan, AdGroups, [refs.group])
    requires Readable(sys, plan, Ads, [refs.adA, refs.adB]) && Readable(sys, plan, Keywords, [refs.keyword])
    requires refs.campaign in sys.adapter.objects && refs.group in sys.adapter.objects && refs.adA in sys.adapter.objects
    requires refs.adB in sys.adapter.objects && refs.keyword in sys.adapter.objects
    requires var objects := sys.adapter.objects;
             ReadbackMatches(plan.request.draft, [Seen(refs.campaign, objects[refs.campaign])], [Seen(refs.group, objects[refs.group])],
                             [Seen(refs.adA, objects[refs.adA]), Seen(refs.adB, objects[refs.adB])],
                             [Seen(refs.keyword, objects[refs.keyword])])
    ensures var r := FullReadbackStep(CALM, sys, plan);
            r.1.Done? && r.0.adapter.objects == sys.adapter.objects && Record(r.0, plan).objects == Record(sys, plan).objects
  {
    hide SystemOk, Readable, LiveRefs, Read, CloseStep, ReadbackMatches, SeenRefs, Escalate;
    var run := plan.request.run;
    CalmReadsLive(sys, sys, plan, Campaigns, [refs.campaign]);
    var one := Read(CALM, sys, run, Campaigns, LiveRefs(sys, plan, Campaigns));
    CalmReadsLive(sys, one.0, plan, AdGroups, [refs.group]);
    var two := Read(CALM, one.0, run, AdGroups, LiveRefs(sys, plan, AdGroups));
    CalmReadsLive(sys, two.0, plan, Ads, [refs.adA, refs.adB]);
    var three := Read(CALM, two.0, run, Ads, LiveRefs(sys, plan, Ads));
    CalmReadsLive(sys, three.0, plan, Keywords, [refs.keyword]);
    var four := Read(CALM, three.0, run, Keywords, LiveRefs(sys, plan, Keywords));
    var c, g, a, k := one.1.reply.readback, two.1.reply.readback, three.1.reply.readback, four.1.reply.readback;
    var objects := sys.adapter.objects;
    assert c == [Seen(refs.campaign, objects[refs.campaign])] && g == [Seen(refs.group, objects[refs.group])];
    assert a == [Seen(refs.adA, objects[refs.adA]), Seen(refs.adB, objects[refs.adB])] && k == [Seen(refs.keyword, objects[refs.keyword])];
    CalmFinishes(four.0, plan, FullReadback, ReadbackIds(SeenRefs(c), SeenRefs(g), SeenRefs(a), SeenRefs(k)));
  }

  lemma PublishedStands(a: Adapter, draft: CampaignDraft, refs: Refs)
    requires |draft.group.ads| == 2 && Published(a, draft, refs, 7)
    ensures forall service, ref :: ref in RefsAfter(refs, 7, service) ==> ref in a.objects
    ensures refs.campaign in a.objects && refs.group in a.objects && refs.adA in a.objects && refs.adB in a.objects
    ensures refs.keyword in a.objects
  {
  }

  lemma FullReadDone(sys: System, plan: Plan, refs: Refs)
    requires Healthy(sys, plan, refs, 7)
    ensures Running(sys.store, plan)
    ensures var r := FullReadbackStep(CALM, sys, plan);
            r.1.Done? && r.0.adapter.objects == sys.adapter.objects && Record(r.0, plan).objects == Record(sys, plan).objects
  {
    hide Healthy, SystemOk, Published, RowsThrough, Owned, ReadbackMatches, ValidDraft, CanConsume, Numbered, BelowCounters, StepsDone,
         LiveRefs, FullReadbackStep, NothingPending;
    HealthyParts(sys, plan, refs, 7);
    DraftHasTwoAds(plan.request.draft);
    PublishedStands(sys.adapter, plan.request.draft, refs);
    forall service ensures Readable(sys, plan, service, RefsAfter(refs, 7, service)) {
      HealthyOwns(sys, plan, refs, 7, service);
    }
    PublishedMatches(sys.adapter, plan.request.draft, refs);
    StepsDoneIs(sys, plan);
    assert RefsAfter(refs, 7, Campaigns) == [refs.campaign] && RefsAfter(refs, 7, AdGroups) == [refs.group];
    assert RefsAfter(refs, 7, Ads) == [refs.adA, refs.adB] && RefsAfter(refs, 7, Keywords) == [refs.keyword];
    ReadsDone(sys, plan, refs);
  }

  // ---------- the whole calm run ----------

  lemma HealthyStep(sys: System, plan: Plan, refs: Refs, n: nat)
    requires Healthy(sys, plan, refs, n) && n < |SAGA_STEPS|
    ensures Running(sys.store, plan)
    ensures var r := RunStep(CALM, sys, plan, StepAt(n));
            r.1.Done? && Healthy(r.0, plan, Grown(sys, refs, n), n + 1)
  {
    hide Healthy, RunStep;
    HealthyParts(sys, plan, refs, n);
    if n < 4 {
      HealthyAdd(sys, plan, refs, n);
    } else if n == 4 || n == 6 {
      HealthyMove(sys, plan, refs, n);
    } else if n == 5 {
      HealthyModeration(sys, plan, refs);
    } else {
      HealthyFull(sys, plan, refs);
    }
  }

  /** From a healthy point the fault-free run completes, with the planned objects published. */
  lemma {:induction false} HealthyCompletes(sys: System, plan: Plan, refs: Refs, n: nat) returns (final: Refs)
    requires Healthy(sys, plan, refs, n)
    ensures OnTrack(sys, plan)
    ensures Healthy(CalmRun(sys, plan).0, plan, final, |SAGA_STEPS|)
    decreases |SAGA_STEPS| - n
  {
    hide Healthy, RunStep, AtRest;
    HealthyParts(sys, plan, refs, n);
    AtMostAll(sys, plan, refs, n);
    StepsDoneIs(sys, plan);
    final := refs;
    if n < |SAGA_STEPS| {
      HealthyStep(sys, plan, refs, n);
      var later := RunStep(CALM, sys, plan, StepAt(n)).0;
      HealthyParts(later, plan, Grown(sys, refs, n), n + 1);
      StepsDoneIs(later, plan);
      final := HealthyCompletes(later, plan, Grown(sys, refs, n), n + 1);
    }
  }

  lemma AtMostAll(sys: System, plan: Plan, refs: Refs, n: nat)
    requires Healthy(sys, plan, refs, n)
    ensures n <= |SAGA_STEPS|
  {
    hide SystemOk, Published, RowsThrough, NothingPending;
  }
}
