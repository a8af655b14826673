/** Values exchanged by the campaign creation saga, its store and the Direct adapter. */
module CampaignTypes {
  datatype Step =
    | CampaignAdd
    | AdGroupAdd
    | AdsAdd
    | KeywordAdd
    | ModerationSubmit
    | ModerationReadback
    | CampaignLaunch
    | FullReadback

  const SAGA_STEPS: seq<Step> := [
    CampaignAdd, AdGroupAdd, AdsAdd, KeywordAdd,
    ModerationSubmit, ModerationReadback, CampaignLaunch, FullReadback
  ]

  function Ordinal(step: Step): (n: nat)
    ensures n < |SAGA_STEPS| && SAGA_STEPS[n] == step
  {
    match step
    case CampaignAdd => 0
    case AdGroupAdd => 1
    case AdsAdd => 2
    case KeywordAdd => 3
    case ModerationSubmit => 4
    case ModerationReadback => 5
    case CampaignLaunch => 6
    case FullReadback => 7
  }

  predicate IsWrite(step: Step) {
    step != ModerationReadback && step != FullReadback
  }

  predicate IsAdd(step: Step) {
    step in {CampaignAdd, AdGroupAdd, AdsAdd, KeywordAdd}
  }

  datatype Service = Campaigns | AdGroups | Ads | Keywords

  datatype Method = Add | Get | Moderate | Resume | Delete

  datatype DirectState = Draft | Moderation | On | Suspended | Archived

  /** The external identifier, such as "ads-3". */
  datatype ObjectRef = ObjectRef(service: Service, number: nat)

  datatype Created = Created(ref: ObjectRef, actualType: string)

  /** Operation keys are joined strings in the program; here they keep their parts. */
  datatype OpKey =
    | StepKey(execution: string, step: Step)
    | CompensationKey(execution: string, ref: ObjectRef)
    | RunKey(run: string, service: Service, verb: Method, ids: seq<ObjectRef>)

  datatype CampaignTerms = CampaignTerms(
    strategy: string, geography: seq<string>, schedule: string, weeklySpendLimit: int)

  datatype AdCopy = AdCopy(
    variantId: string, title: string, text: string, landingPage: string, utm: string, mediaReference: string)

  datatype GroupDraft = GroupDraft(
    name: string, negativeKeywords: seq<string>, ads: seq<AdCopy>, keyword: string)

  datatype CampaignDraft = CampaignDraft(campaignType: string, terms: CampaignTerms, group: GroupDraft)

  datatype CreationRequest = CreationRequest(
    run: string, execution: string, proposal: string, approval: string,
    account: string, profile: string, reservation: string, draft: CampaignDraft)

  /** The canonical plan: the request together with the policy that validated it. */
  datatype Plan = Plan(request: CreationRequest, policy: string)

  /** The approval binds every field of the plan except the approval's own identifier. */
  function Binding(plan: Plan): Plan {
    plan.(request := plan.request.(approval := ""))
  }

  /** The part of draft validation the saga's own checks rely on. */
  predicate ValidDraft(draft: CampaignDraft) {
    && draft.campaignType == "UNIFIED_CAMPAIGN"
    && |draft.group.ads| == 2
    && {draft.group.ads[0].variantId, draft.group.ads[1].variantId} == {"A", "B"}
  }

  datatype Payload =
    | CampaignPayload(campaignType: string, state: DirectState, terms: CampaignTerms)
    | GroupPayload(campaign: ObjectRef, name: string, negativeKeywords: seq<string>)
    | AdsPayload(group: ObjectRef, items: seq<AdCopy>)
    | KeywordPayload(group: ObjectRef, keyword: string)
    | IdsPayload(ids: seq<ObjectRef>)
    | IdPayload(id: ObjectRef)

  datatype DirectRequest = DirectRequest(run: string, key: OpKey, service: Service, verb: Method, payload: Payload)

  /** What the adapter stores for one object besides its type and its state. */
  datatype Content =
    | CampaignContent(terms: CampaignTerms)
    | GroupContent(campaign: ObjectRef, name: string, negativeKeywords: seq<string>)
    | AdContent(group: ObjectRef, copy: AdCopy)
    | KeywordContent(group: ObjectRef, keyword: string)

  datatype DirectObject = DirectObject(actualType: string, state: DirectState, content: Content)

  datatype Seen = Seen(ref: ObjectRef, item: DirectObject)

  datatype Reply = Reply(service: Service, verb: Method, created: seq<Created>, readback: seq<Seen>)
}
