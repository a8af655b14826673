/** The last readback, field by field: a saga becomes APPLIED only over exactly the campaign its draft describes. */
module SagaPublished {
  import opened Basics
  import opened CampaignTypes
  import opened DirectAdapter
  import opened SagaStore
  import opened SagaService
  import opened SagaMachine
  import opened SagaSafety
  import opened SagaInvariant
  import opened SagaEvents
  import opened SagaWrites
  import opened SagaRuns
  import opened SagaRefinement
  import opened SagaTracks
  import opened SagaTheorems
  import opened SagaWedges
  import opened SagaProgressRuns

  // ---------- the published campaign ----------

  /** The launched campaign of a draft. */
  predicate PublishedCampaign(objects: map<ObjectRef, DirectObject>, ref: ObjectRef, draft: CampaignDraft) {
    && ref in objects && objects[ref].content.CampaignContent?
    && var item, terms := objects[ref], objects[ref].content.terms;
    && item.actualType == "UNIFIED_CAMPAIGN" && item.state == On
    && terms.strategy == draft.terms.strategy && terms.geography == draft.terms.geography
    && terms.schedule == draft.terms.schedule && terms.weeklySpendLimit == draft.terms.weeklySpendLimit
  }

  predicate PublishedGroup(objects: map<ObjectRef, DirectObject>, ref: ObjectRef, campaign: ObjectRef, draft: CampaignDraft) {
    && ref in objects && objects[ref].content.GroupContent?
    && var item := objects[ref];
    && item.actualType == "UNIFIED_AD_GROUP" && item.content.campaign == campaign
    && item.content.name == draft.group.name && item.content.negativeKeywords == draft.group.negativeKeywords
  }

  predicate PublishedAd(objects: map<ObjectRef, DirectObject>, ref: ObjectRef, group: ObjectRef, ad: AdCopy) {
    && ref in objects && objects[ref].content.AdContent?
    && var item, copy := objects[ref], objects[ref].content.copy;
    && item.actualType == "TEXT_AD" && item.state == Moderation && item.content.group == group
    && copy.variantId == ad.variantId && copy.title == ad.title && copy.text == ad.text
    && copy.landingPage == ad.landingPage && copy.utm == ad.utm && copy.mediaReference == ad.mediaReference
  }

  predicate PublishedKeyword(objects: map<ObjectRef, DirectObject>, ref: ObjectRef, group: ObjectRef, draft: CampaignDraft) {
    && ref in objects && objects[ref].content.KeywordContent?
    && var item := objects[ref];
    && item.actualType == "KEYWORD" && item.state == Suspended
    && item.content.group == group && item.content.keyword == draft.group.keyword
  }

  /** The saga's live objects are one campaign, one group, two ads and one keyword, and each is what the draft asks for. */
  predicate PublishedAsDrafted(sys: System, plan: Plan)
    requires Loaded(sys.store, plan) && |plan.request.draft.group.ads| == 2
  {
    var draft, objects := plan.request.draft, sys.adapter.objects;
    var campaigns, groups := LiveRefs(sys, plan, Campaigns), LiveRefs(sys, plan, AdGroups);
    var ads, keywords := LiveRefs(sys, plan, Ads), LiveRefs(sys, plan, Keywords);
    && |campaigns| == 1 && |groups| == 1 && |ads| == 2 && |keywords| == 1
    && PublishedCampaign(objects, campaigns[0], draft)
    && PublishedGroup(objects, groups[0], campaigns[0], draft)
    && PublishedKeyword(objects, keywords[0], groups[0], draft)
    && ((PublishedAd(objects, ads[0], groups[0], draft.group.ads[0]) && PublishedAd(objects, ads[1], groups[0], draft.group.ads[1]))
        || (PublishedAd(objects, ads[0], groups[0], draft.group.ads[1]) && PublishedAd(objects, ads[1], groups[0], draft.group.ads[0])))
  }

  // ---------- the four reads ----------

  function ReadKey(sys: System, plan: Plan, service: Service): OpKey
    requires Loaded(sys.store, plan)
  {
    RunKey(plan.request.run, service, Get, LiveRefs(sys, plan, service))
  }

  /** The read of one kind is neither refused nor is its response lost. */
  predicate ReadArrives(env: Env, sys: System, plan: Plan, service: Service)
    requires Loaded(sys.store, plan)
  {
    ReadKey(sys, plan, service) !in env.faults.fail
    && (ReadKey(sys, plan, service) in env.faults.lose ==> ReadKey(sys, plan, service) in sys.adapter.timedOut)
  }

  /** Later reads of a readback meet what the first one met: only the log and other reads' lost responses differ. */
  predicate SameWorld(now: System, sys: System, plan: Plan, service: Service)
    requires Loaded(sys.store, plan)
  {
    && now.store == sys.store && now.adapter.objects == sys.adapter.objects && now.adapter.results == sys.adapter.results
    && (ReadKey(sys, plan, service) in now.adapter.timedOut <==> ReadKey(sys, plan, service) in sys.adapter.timedOut)
  }

  lemma {:induction false} ReadOfKindWhen(env: Env, now: System, sys: System, plan: Plan, service: Service)
    requires SystemOk(sys) && Loaded(sys.store, plan) && SameWorld(now, sys, plan, service)
    ensures var ids := LiveRefs(sys, plan, service);
            var r := Read(env, now, plan.request.run, service, ids);
            && (r.1.Answered? <==> CanRead(sys, plan, service) && ReadArrives(env, sys, plan, service))
            && (r.1.Answered? ==>
                  && |r.1.reply.readback| == |ids|
                  && forall i :: 0 <= i < |ids| ==>
                       ids[i] in sys.adapter.objects && r.1.reply.readback[i] == Seen(ids[i], sys.adapter.objects[ids[i]]))
            && r.0.store == sys.store
            && forall other :: other != service && SameWorld(now, sys, plan, other) ==> SameWorld(r.0, sys, plan, other)
  {
    hide SystemOk, LiveRefs, Owned;
    LiveRefsOwned(sys, plan, service);
    NoReadRemembered(sys);
    var ids := LiveRefs(sys, plan, service);
    assert ReadRequest(plan.request.run, service, ids).key == ReadKey(sys, plan, service);
  }

  // ---------- what is compared ----------

  function SeenAt(objects: map<ObjectRef, DirectObject>, ref: ObjectRef): Seen
    requires ref in objects
  {
    Seen(ref, objects[ref])
  }

  /** The comparison of the two ads by variant, spelled out. */
  lemma AdsCompared(draft: CampaignDraft, objects: map<ObjectRef, DirectObject>, group: ObjectRef, a: ObjectRef, b: ObjectRef)
    requires ValidDraft(draft) && a in objects && b in objects
    ensures AdsMatch(draft, group, [SeenAt(objects, a), SeenAt(objects, b)])
       <==> (PublishedAd(objects, a, group, draft.group.ads[0]) && PublishedAd(objects, b, group, draft.group.ads[1]))
            || (PublishedAd(objects, a, group, draft.group.ads[1]) && PublishedAd(objects, b, group, draft.group.ads[0]))
  {
    var one, two := SeenAt(objects, a), SeenAt(objects, b);
    var ads, copies := [one, two], draft.group.ads;
    VariantsDiffer(draft);
    assert copies == [copies[0], copies[1]];
    assert one in ads && two in ads && copies[0] in copies && copies[1] in copies;
    AdIs(objects, a, group, copies[0]);
    AdIs(objects, a, group, copies[1]);
    AdIs(objects, b, group, copies[0]);
    AdIs(objects, b, group, copies[1]);
    hide PublishedAd;
    if AdsMatch(draft, group, ads) {
      VariantsMatched(draft, group, one, two);
    } else if (one.item == AdItem(group, copies[0]) && two.item == AdItem(group, copies[1]))
              || (one.item == AdItem(group, copies[1]) && two.item == AdItem(group, copies[0])) {
      MatchedVariants(draft, group, one, two);
    }
  }

  function AdItem(group: ObjectRef, copy: AdCopy): DirectObject {
    DirectObject("TEXT_AD", Moderation, AdContent(group, copy))
  }

  lemma AdIs(objects: map<ObjectRef, DirectObject>, ref: ObjectRef, group: ObjectRef, ad: AdCopy)
    requires ref in objects
    ensures PublishedAd(objects, ref, group, ad) <==> objects[ref] == AdItem(group, ad)
  {
  }

  lemma VariantsDiffer(draft: CampaignDraft)
    requires ValidDraft(draft)
    ensures |draft.group.ads| == 2 && draft.group.ads[0].variantId != draft.group.ads[1].variantId
  {
    var pair := {draft.group.ads[0].variantId, draft.group.ads[1].variantId};
    assert "A" in pair && "B" in pair && "A"[0] != "B"[0];
  }

  lemma VariantsMatched(draft: CampaignDraft, group: ObjectRef, one: Seen, two: Seen)
    requires |draft.group.ads| == 2 && draft.group.ads[0].variantId != draft.group.ads[1].variantId
    requires AdsMatch(draft, group, [one, two])
    ensures var copies := draft.group.ads;
            || (one.item == AdItem(group, copies[0]) && two.item == AdItem(group, copies[1]))
            || (one.item == AdItem(group, copies[1]) && two.item == AdItem(group, copies[0]))
  {
    var ads, copies := [one, two], draft.group.ads;
    assert one in ads && two in ads && copies[0] in copies && copies[1] in copies;
    var observed := set seen | seen in ads && seen.item.content.AdContent? :: seen.item.content.copy.variantId;
    var expected := set copy | copy in copies :: copy.variantId;
    assert observed == expected;
    assert copies[0].variantId in expected && copies[1].variantId in expected;
    assert one.item.content.copy.variantId in observed && two.item.content.copy.variantId in observed;
  }

  lemma MatchedVariants(draft: CampaignDraft, group: ObjectRef, one: Seen, two: Seen)
    requires |draft.group.ads| == 2 && draft.group.ads[0].variantId != draft.group.ads[1].variantId
    requires var copies := draft.group.ads;
             || (one.item == AdItem(group, copies[0]) && two.item == AdItem(group, copies[1]))
             || (one.item == AdItem(group, copies[1]) && two.item == AdItem(group, copies[0]))
    ensures AdsMatch(draft, group, [one, two])
  {
    var ads, copies := [one, two], draft.group.ads;
    assert one in ads && two in ads && copies[0] in copies && copies[1] in copies;
    var observed := set seen | seen in ads && seen.item.content.AdContent? :: seen.item.content.copy.variantId;
    var expected := set copy | copy in copies :: copy.variantId;
    assert observed == {copies[0].variantId, copies[1].variantId};
    assert expected == {copies[0].variantId, copies[1].variantId};
  }

  /** The whole comparison, spelled out over four readbacks. */
  lemma Compared(sys: System, plan: Plan, c: seq<Seen>, g: seq<Seen>, a: seq<Seen>, k: seq<Seen>)
    requires Loaded(sys.store, plan) && ValidDraft(plan.request.draft)
    requires Shows(c, sys, plan, Campaigns) && Shows(g, sys, plan, AdGroups) && Shows(a, sys, plan, Ads) && Shows(k, sys, plan, Keywords)
    ensures ReadbackMatches(plan.request.draft, c, g, a, k) <==> PublishedAsDrafted(sys, plan)
  {
    hide LiveRefs, AdsMatch, PublishedAd;
    var draft, objects := plan.request.draft, sys.adapter.objects;
    var ads, groups := LiveRefs(sys, plan, Ads), LiveRefs(sys, plan, AdGroups);
    if |ads| == 2 && |groups| == 1 {
      assert a == [SeenAt(objects, ads[0]), SeenAt(objects, ads[1])];
      AdsCompared(draft, objects, groups[0], ads[0], ads[1]);
    }
  }

  /** A readback shows the live objects of one kind as they are. */
  ghost predicate Shows(readback: seq<Seen>, sys: System, plan: Plan, service: Service)
    requires Loaded(sys.store, plan)
  {
    var ids := LiveRefs(sys, plan, service);
    |readback| == |ids| && forall i :: 0 <= i < |ids| ==> ids[i] in sys.adapter.objects && readback[i] == SeenAt(sys.adapter.objects, ids[i])
  }

  lemma SameHere(sys: System, plan: Plan)
    requires Loaded(sys.store, plan)
    ensures forall service :: SameWorld(sys, sys, plan, service)
  {
  }

  /**
   * The last step completes if and only if none of its four reads is refused or lost and the live objects are, field by field,
   * the campaign of the draft; otherwise, when the reads arrive and every kind can be read, it fails and compensation begins.
   */
  lemma {:induction false} ReadbackDoneWhen(env: Env, sys: System, plan: Plan)
    requires AtRest(sys, plan) && |Record(sys, plan).steps| == 7
    ensures |plan.request.draft.group.ads| == 2
    ensures var r := RunStep(env, sys, plan, FullReadback);
            var arrive := forall service :: ReadArrives(env, sys, plan, service);
            && (r.1.Done? <==> arrive && PublishedAsDrafted(sys, plan))
            && (arrive && (forall service :: CanRead(sys, plan, service)) && !PublishedAsDrafted(sys, plan) ==>
                  r.1 == Failure("FULL_CAMPAIGN_READBACK_FAILED"))
  {
    hide SystemOk, NothingPending, Read, ReadArrives, PublishedAsDrafted, CanRead, LiveRefs, SameWorld, CloseStep, ReadbackMatches, SeenRefs,
         BeginStep, Shows;
    AtRestBegins(sys, plan);
    DraftOf(sys, plan);
    var run := plan.request.run;
    SameHere(sys, plan);
    ReadAndShown(env, sys, sys, plan, Campaigns);
    var c := Read(env, sys, run, Campaigns, LiveRefs(sys, plan, Campaigns));
    ReadAndShown(env, c.0, sys, plan, AdGroups);
    var g := Read(env, c.0, run, AdGroups, LiveRefs(sys, plan, AdGroups));
    ReadAndShown(env, g.0, sys, plan, Ads);
    var a := Read(env, g.0, run, Ads, LiveRefs(sys, plan, Ads));
    ReadAndShown(env, a.0, sys, plan, Keywords);
    var k := Read(env, a.0, run, Keywords, LiveRefs(sys, plan, Keywords));
    PublishedCanBeRead(sys, plan);
    AllArrive(env, sys, plan);
    if c.1.Answered? && g.1.Answered? && a.1.Answered? && k.1.Answered? {
      Compared(sys, plan, c.1.reply.readback, g.1.reply.readback, a.1.reply.readback, k.1.reply.readback);
      CloseMoves(k.0, plan, FullReadback,
                 ReadbackIds(SeenRefs(c.1.reply.readback), SeenRefs(g.1.reply.readback), SeenRefs(a.1.reply.readback),
                             SeenRefs(k.1.reply.readback)));
    }
  }

  lemma AllArrive(env: Env, sys: System, plan: Plan)
    requires Loaded(sys.store, plan)
    ensures (forall service :: ReadArrives(env, sys, plan, service))
       <==> ReadArrives(env, sys, plan, Campaigns) && ReadArrives(env, sys, plan, AdGroups)
            && ReadArrives(env, sys, plan, Ads) && ReadArrives(env, sys, plan, Keywords)
  {
    hide ReadArrives;
    if ReadArrives(env, sys, plan, Campaigns) && ReadArrives(env, sys, plan, AdGroups) && ReadArrives(env, sys, plan, Ads)
       && ReadArrives(env, sys, plan, Keywords)
    {
      forall service ensures ReadArrives(env, sys, plan, service) {
        match service
        case Campaigns =>
        case AdGroups =>
        case Ads =>
        case Keywords =>
      }
    }
  }

  lemma PublishedCanBeRead(sys: System, plan: Plan)
    requires Loaded(sys.store, plan) && |plan.request.draft.group.ads| == 2
    ensures PublishedAsDrafted(sys, plan) ==> forall service :: CanRead(sys, plan, service)
  {
    hide LiveRefs;
    if PublishedAsDrafted(sys, plan) {
      forall service ensures CanRead(sys, plan, service) {
        match service
        case Campaigns =>
        case AdGroups =>
        case Ads =>
        case Keywords =>
      }
    }
  }

  lemma {:induction false} ReadAndShown(env: Env, now: System, sys: System, plan: Plan, service: Service)
    requires SystemOk(sys) && Running(sys.store, plan) && now.store == sys.store && SameWorld(now, sys, plan, service)
    ensures var r := Read(env, now, plan.request.run, service, LiveRefs(sys, plan, service));
            && (r.1.Answered? <==> CanRead(sys, plan, service) && ReadArrives(env, sys, plan, service))
            && (r.1.Answered? ==> Shows(r.1.reply.readback, sys, plan, service))
            && r.0.store == sys.store && Running(r.0.store, plan)
            && forall other :: other != service && SameWorld(now, sys, plan, other) ==> SameWorld(r.0, sys, plan, other)
  {
    hide SystemOk, Read, SameWorld, CanRead, ReadArrives, LiveRefs;
    ReadOfKindWhen(env, now, sys, plan, service);
  }

  // ---------- every run ----------

  /** No saga is added, and the steps and plans of all stay. */
  ghost predicate StepsStay(st: Store, later: Store) {
    later.sagas.Keys == st.sagas.Keys
    && forall k :: k in st.sagas ==> later.sagas[k].plan == st.sagas[k].plan && later.sagas[k].steps == st.sagas[k].steps
  }

  /** The same, but one step of saga `e` may be completed. */
  ghost predicate OneStepMore(st: Store, later: Store, e: string) {
    && later.sagas.Keys == st.sagas.Keys
    && (forall k :: k in st.sagas ==> later.sagas[k].plan == st.sagas[k].plan)
    && (forall k :: k in st.sagas && k != e ==> later.sagas[k].steps == st.sagas[k].steps)
    && (e in st.sagas ==> |later.sagas[e].steps| <= |st.sagas[e].steps| + 1)
  }

  lemma ClaimStays(c: Config, gateOpen: bool)
    ensures StepsStay(c.sys.store, DoClaim(c, gateOpen).sys.store)
  {
    hide HandlerRequest, BeginStep, Live, Claim, CancelClaim, StepsStay;
    if c.at.Working? && Running(c.sys.store, c.at.plan) {
      forall request ensures StepsStay(c.sys.store, Claim(c.sys.store, request, gateOpen).0)
                             && StepsStay(c.sys.store, CancelClaim(Claim(c.sys.store, request, gateOpen).0, request)) {
        ClaimedStays(c.sys.store, request, gateOpen);
        CancelledStays(Claim(c.sys.store, request, gateOpen).0, request);
        StaysTwice(c.sys.store, Claim(c.sys.store, request, gateOpen).0, CancelClaim(Claim(c.sys.store, request, gateOpen).0, request));
      }
    }
    StaysHere(c.sys.store);
  }

  lemma StaysHere(st: Store)
    ensures StepsStay(st, st)
  {
  }

  lemma StaysTwice(st: Store, middle: Store, later: Store)
    requires StepsStay(st, middle) && StepsStay(middle, later)
    ensures StepsStay(st, later)
  {
  }

  lemma ClaimedStays(st: Store, request: DirectRequest, gateOpen: bool)
    ensures StepsStay(st, Claim(st, request, gateOpen).0)
  {
    hide ExpectedRequest, HasDispatch, Owns;
  }

  lemma CancelledStays(st: Store, request: DirectRequest)
    ensures StepsStay(st, CancelClaim(st, request))
  {
    hide WithoutClaim;
  }

  lemma RegisterStays(c: Config)
    ensures StepsStay(c.sys.store, DoRegister(c).sys.store)
  {
    hide RefsOf, DistinctRefs, IsPending, RowsOf;
  }

  /** The events that neither begin a saga nor close a step nor read for one. */
  lemma OtherStays(c: Config, event: Event)
    requires !event.Begin? && !event.CloseWrite? && !event.RunReadStep?
    requires event.DeleteNext? ==> Inv(c)
    ensures StepsStay(c.sys.store, Next(c, event).sys.store)
  {
    hide StepsStay, DoClaim, DoRegister, DoDelete, Inv;
    match event
    case ClaimWrite(gateOpen) => ClaimStays(c, gateOpen);
    case RegisterObjects => RegisterStays(c);
    case DeleteNext(env) => DeleteStays(c, env);
    case _ => QuietStays(c, event);
  }

  lemma DeleteStays(c: Config, env: Env)
    requires Inv(c)
    ensures StepsStay(c.sys.store, DoDelete(c, env).sys.store)
  {
    hide SystemOk, Send, DeleteAllowed, AllOwned, Listed, Shaped, Lockstep, RowsKnown, Accounted, Truthful, RepliesFit;
    if c.at.Compensating? && c.at.todo != [] {
      SagaParts(c.sys, c.at.plan);
      CompensationKeepsStore(env, c.sys, c.at.plan, c.at.todo[0]);
    }
  }

  lemma QuietStays(c: Config, event: Event)
    requires !event.Begin? && !event.CloseWrite? && !event.RunReadStep?
    requires !event.ClaimWrite? && !event.RegisterObjects? && !event.DeleteNext?
    ensures StepsStay(c.sys.store, Next(c, event).sys.store)
  {
    hide StepsStay, Next;
    if event.Recover? || event.UseAuthority? || event.Abandon? || event.FinishCompensation? || event.FinishApplied? {
      SettlingStays(c, event);
    } else {
      CommitStays(c, event);
    }
  }

  lemma SettlingStays(c: Config, event: Event)
    requires event.Recover? || event.UseAuthority? || event.Abandon? || event.FinishCompensation? || event.FinishApplied?
    ensures StepsStay(c.sys.store, Next(c, event).sys.store)
  {
    hide StepsStay, DoRecover, DoUseAuthority, DoAbandon, DoFinishCompensation, DoFinishApplied, DoBegin, DoClaim, DoSend, DoRegister,
         DoClose, DoReadOnly, DoReadStep, DoDelete, DoMark, CancelClaim, RegisterReservation, RegisterApproval;
    match event
    case Recover => RecoverStays(c);
    case UseAuthority => UseStays(c);
    case Abandon => FinishStays(c);
    case FinishCompensation => FinishStays(c);
    case FinishApplied => FinishStays(c);
    case _ =>
  }

  lemma RecoverStays(c: Config)
    ensures StepsStay(c.sys.store, DoRecover(c).sys.store)
  {
    hide FirstPending;
  }

  lemma UseStays(c: Config)
    ensures StepsStay(c.sys.store, DoUseAuthority(c).sys.store)
  {
    hide CanConsume;
  }

  lemma FinishStays(c: Config)
    ensures StepsStay(c.sys.store, DoAbandon(c).sys.store)
    ensures StepsStay(c.sys.store, DoFinishCompensation(c).sys.store)
    ensures StepsStay(c.sys.store, DoFinishApplied(c).sys.store)
  {
  }

  lemma CommitStays(c: Config, event: Event)
    requires !event.Begin? && !event.CloseWrite? && !event.RunReadStep?
    requires !event.ClaimWrite? && !event.RegisterObjects? && !event.DeleteNext?
    requires !event.Recover? && !event.UseAuthority? && !event.Abandon? && !event.FinishCompensation? && !event.FinishApplied?
    ensures StepsStay(c.sys.store, Next(c, event).sys.store)
  {
    hide DoBegin, DoClaim, DoRegister, DoDelete, DoClose, DoReadStep, DoRecover, DoUseAuthority, DoAbandon, DoFinishCompensation,
         DoFinishApplied, RunStep, Read, Invoke, StartCompensation, WithoutClaim, MarkRows, LiveRefs;
    if event.ReadOnly? {
      ReadOnlyStays(c, event.faults, event.service);
      hide DoReadOnly;
    }
  }

  lemma ReadOnlyStays(c: Config, faults: Faults, service: Service)
    ensures DoReadOnly(c, faults, service).sys.store == c.sys.store
  {
    hide LiveRefs, Invoke;
  }

  /** Closing a write step completes at most that step. */
  lemma CloseAddsOne(c: Config)
    ensures c.at.Registered? || c.at.Replied? ==> OneStepMore(c.sys.store, DoClose(c).sys.store, c.at.plan.request.execution)
    ensures !c.at.Registered? && !c.at.Replied? ==> DoClose(c) == c
  {
    hide StartCompensation, TypesMatch, AllIn, StatesOf, CloseAt, CreatedRefs, Settle, OneStepMore;
    if c.at.Registered? || c.at.Replied? {
      forall step, response | Running(c.sys.store, c.at.plan)
        ensures OneStepMore(c.sys.store, CloseAt(c, c.at.plan, step, response).sys.store, c.at.plan.request.execution)
      {
        CloseAtAddsOne(c, c.at.plan, step, response);
      }
      forall status, detail | Loaded(c.sys.store, c.at.plan)
        ensures OneStepMore(c.sys.store, Settle(c.sys, c.at.plan, status, detail).store, c.at.plan.request.execution)
      {
        SettleAddsNone(c.sys, c.at.plan, status, detail);
      }
      SameAddsNone(c.sys.store, c.at.plan.request.execution);
    }
  }

  lemma CloseAtAddsOne(c: Config, plan: Plan, step: Step, response: Response)
    requires Running(c.sys.store, plan)
    ensures OneStepMore(c.sys.store, CloseAt(c, plan, step, response).sys.store, plan.request.execution)
  {
    hide IsPending, HasStep, CloseDispatch;
  }

  lemma SettleAddsNone(sys: System, plan: Plan, status: SagaStatus, detail: string)
    requires Loaded(sys.store, plan)
    ensures OneStepMore(sys.store, Settle(sys, plan, status, detail).store, plan.request.execution)
  {
  }

  lemma SameAddsNone(st: Store, e: string)
    ensures OneStepMore(st, st, e)
  {
  }

  /** A read step completes at most itself. */
  lemma ReadAddsOne(c: Config, env: Env)
    ensures DoReadStep(c, env).sys.store == c.sys.store
            || (c.at.Working? && Running(c.sys.store, c.at.plan)
                && OneStepMore(c.sys.store, DoReadStep(c, env).sys.store, c.at.plan.request.execution)
                && |Record(c.sys, c.at.plan).steps| < |SAGA_STEPS|
                && (var step := SAGA_STEPS[|Record(c.sys, c.at.plan).steps|];
                    RunStep(env, c.sys, c.at.plan, step).1.Done?
                    && DoReadStep(c, env) == Config(RunStep(env, c.sys, c.at.plan, step).0, Working(c.at.plan))))
  {
    hide RunStep, StartCompensation, FullReadbackStep;
    if c.at.Working? && Running(c.sys.store, c.at.plan) {
      var next := NextStep(Record(c.sys, c.at.plan));
      if next.Some? && !IsWrite(next.value) {
        ReadStepEnds(env, c.sys, c.at.plan, next.value);
      }
    }
  }

  /** A pending dispatch is a write step, so it is not the eighth step. */
  lemma {:induction false} PendingIsNoRead(c: Config)
    requires Inv(c) && (c.at.Registered? || c.at.Replied?)
    ensures Running(c.sys.store, c.at.plan) && |Record(c.sys, c.at.plan).steps| != 7
  {
    hide SystemOk, Answers, HasObjectsOf, AuthorityUsed, Shaped, Lockstep, RowsKnown, Accounted, Truthful, RepliesFit;
    SagaParts(c.sys, c.at.plan);
    PendingRow(c.sys, c.at.plan, c.at.step);
  }

  /** Only the last readback completes the eighth step. */
  lemma {:induction false} EighthStep(c: Config, event: Event, k: string)
    requires Inv(c) && k in c.sys.store.sagas && |c.sys.store.sagas[k].steps| == 7
    requires var later := Next(c, event).sys.store; k in later.sagas && |later.sagas[k].steps| == 8
    ensures event.RunReadStep? && c.at.Working? && c.at.plan == c.sys.store.sagas[k].plan && c.at.plan.request.execution == k
    ensures Next(c, event) == Config(RunStep(event.env, c.sys, c.at.plan, FullReadback).0, Working(c.at.plan))
    ensures RunStep(event.env, c.sys, c.at.plan, FullReadback).1.Done?
  {
    hide Inv, Next, DoClose, DoReadStep, DoBegin, RunStep;
    if event.Begin? {
      NextIs(c, event);
      BeginStays(c, event.plan, event.now, event.approver);
    } else if event.CloseWrite? {
      NextIs(c, event);
      CloseAddsOne(c);
      if c.at.Registered? || c.at.Replied? {
        PendingIsNoRead(c);
      }
    } else if event.RunReadStep? {
      NextIs(c, event);
      ReadAddsOne(c, event.env);
    } else {
      OtherStays(c, event);
    }
  }

  lemma NextIs(c: Config, event: Event)
    ensures event.Begin? ==> Next(c, event) == DoBegin(c, event.plan, event.now, event.approver)
    ensures event.CloseWrite? ==> Next(c, event) == DoClose(c)
    ensures event.RunReadStep? ==> Next(c, event) == DoReadStep(c, event.env)
  {
    hide DoBegin, DoClose, DoReadStep;
  }

  /** Beginning keeps every saga, and a new one has no steps. */
  lemma BeginStays(c: Config, plan: Plan, now: int, approver: Principal)
    ensures var st, later := c.sys.store, DoBegin(c, plan, now, approver).sys.store;
            && (forall k :: k in st.sagas ==> k in later.sagas && later.sagas[k] == st.sagas[k])
            && (forall k :: k in later.sagas && k !in st.sagas ==> later.sagas[k].steps == [])
  {
    hide ReservationProblem, ApprovalReservable, ValidDraft, FirstPending;
  }

  /** The readback reads and writes nothing else: what it saw still stands when the step is closed. */
  lemma {:induction false} ClosedAsDrafted(env: Env, sys: System, plan: Plan)
    requires AtRest(sys, plan) && |Record(sys, plan).steps| == 7 && RunStep(env, sys, plan, FullReadback).1.Done?
    ensures var later := RunStep(env, sys, plan, FullReadback).0;
            && |plan.request.draft.group.ads| == 2 && PublishedAsDrafted(sys, plan) && PublishedAsDrafted(later, plan)
  {
    hide AtRest, RunStep, PublishedAsDrafted;
    RestRuns(sys, plan);
    ReadbackDoneWhen(env, sys, plan);
    ReadStepEnds(env, sys, plan, FullReadback);
    ReadStepFrame(env, sys, plan, FullReadback);
    SamePublished(sys, RunStep(env, sys, plan, FullReadback).0, plan);
  }

  lemma SamePublished(sys: System, later: System, plan: Plan)
    requires Loaded(sys.store, plan) && Loaded(later.store, plan) && |plan.request.draft.group.ads| == 2
    requires Record(later, plan).objects == Record(sys, plan).objects && later.adapter.objects == sys.adapter.objects
    ensures PublishedAsDrafted(later, plan) == PublishedAsDrafted(sys, plan)
  {
    hide PublishedCampaign, PublishedGroup, PublishedAd, PublishedKeyword, Live, OfService;
  }

  /** Saga `k` is in the store and its live objects are exactly the campaign of its draft. */
  ghost predicate StandsAsDrafted(sys: System, k: string) {
    && k in sys.store.sagas && sys.store.sagas[k].plan.request.execution == k && Loaded(sys.store, sys.store.sagas[k].plan)
    && |sys.store.sagas[k].plan.request.draft.group.ads| == 2
    && PublishedAsDrafted(sys, sys.store.sagas[k].plan)
  }

  /**
   * In every run, at the moment a saga completes its eighth step the adapter holds exactly the campaign of its draft:
   * launched, with its terms, its group, both ads in moderation and the keyword, under the identifiers the saga registered.
   */
  lemma {:induction false} CompletedAsDrafted(first: Config, events: seq<Event>, event: Event, k: string)
    requires Initial(first)
    requires var st, later := RunEvents(first, events).sys.store, Next(RunEvents(first, events), event).sys.store;
             k in st.sagas && |st.sagas[k].steps| == 7 && k in later.sagas && |later.sagas[k].steps| == 8
    ensures StandsAsDrafted(Next(RunEvents(first, events), event).sys, k)
  {
    hide RunEvents, Next, Inv, Initial, PublishedAsDrafted, RunStep, AtRest;
    InitialInv(first);
    RunInv(first, events);
    var c := RunEvents(first, events);
    EighthStep(c, event, k);
    WorkingRests(c);
    ClosedAsDrafted(event.env, c.sys, c.at.plan);
    ReadStepEnds(event.env, c.sys, c.at.plan, FullReadback);
  }

  lemma WorkingRests(c: Config)
    requires Inv(c) && c.at.Working?
    ensures AtRest(c.sys, c.at.plan) && Running(c.sys.store, c.at.plan)
  {
    hide SystemOk, NothingPending;
  }

  function StepsOf(st: Store, k: string): nat {
    if k in st.sagas then |st.sagas[k].steps| else 0
  }

  /** An event completes at most one step of a saga, and a new saga has none. */
  lemma {:induction false} OneStepAtATime(c: Config, event: Event, k: string)
    requires Inv(c)
    ensures StepsOf(Next(c, event).sys.store, k) <= StepsOf(c.sys.store, k) + 1
  {
    hide Inv, Next, DoClose, DoReadStep, DoBegin, RunStep;
    NextIs(c, event);
    if event.Begin? {
      BeginStays(c, event.plan, event.now, event.approver);
    } else if event.CloseWrite? {
      CloseAddsOne(c);
    } else if event.RunReadStep? {
      ReadAddsOne(c, event.env);
    } else {
      OtherStays(c, event);
    }
  }

  /**
   * So every saga that completed its steps, and every APPLIED one, was published exactly as drafted at some moment of the run.
   */
  lemma {:induction false} AppliedWasPublished(first: Config, events: seq<Event>, k: string) returns (n: nat)
    requires Initial(first)
    requires var st := RunEvents(first, events).sys.store;
             k in st.sagas && (st.sagas[k].status == Applied || |st.sagas[k].steps| == |SAGA_STEPS|)
    ensures n <= |events| && StandsAsDrafted(RunEvents(first, events[..n]).sys, k)
    decreases |events|
  {
    hide RunEvents, Next, Inv, Initial, StandsAsDrafted;
    InitialInv(first);
    RunInv(first, events);
    EightSteps(RunEvents(first, events), k);
    if events == [] {
      NothingAtFirst(first);
    } else {
      var before, event := events[..|events| - 1], Last(events);
      assert events == before + [event];
      RunThen(first, before, event);
      RunInv(first, before);
      OneStepAtATime(RunEvents(first, before), event, k);
      if StepsOf(RunEvents(first, before).sys.store, k) == 8 {
        n := AppliedWasPublished(first, before, k);
        assert before[..n] == events[..n];
      } else {
        StillShaped(RunEvents(first, before), k);
        CompletedAsDrafted(first, before, event, k);
        n := |events|;
        assert events[..n] == events;
      }
    }
  }

  lemma {:induction false} NothingAtFirst(first: Config)
    requires Initial(first)
    ensures RunEvents(first, []).sys.store.sagas == map[]
  {
    hide Next;
  }

  lemma {:induction false} EightSteps(c: Config, k: string)
    requires Inv(c) && k in c.sys.store.sagas
    ensures c.sys.store.sagas[k].status == Applied ==> |c.sys.store.sagas[k].steps| == |SAGA_STEPS|
  {
    hide PositionOk, Lockstep, RowsKnown, Accounted, Truthful, RepliesFit, Keyed, GrantsBound, SentOnce, Numbered;
    assert SagaOk(c.sys, k);
  }

  lemma {:induction false} StillShaped(c: Config, k: string)
    requires Inv(c)
    ensures StepsOf(c.sys.store, k) <= |SAGA_STEPS|
  {
    hide PositionOk, Lockstep, RowsKnown, Accounted, Truthful, RepliesFit, Keyed, GrantsBound, SentOnce, Numbered;
    if k in c.sys.store.sagas {
      assert SagaOk(c.sys, k);
    }
  }
}
