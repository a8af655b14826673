/** The socket-free Direct adapter: an object store that is idempotent by operation key. */
module DirectAdapter {
  import opened Basics
  import opened CampaignTypes

  /**
   * What the environment does to calls: `fail` are refused definitely before they take effect,
   * `lose` lose their first response after taking effect, `types` overrides the type of new objects.
   */
  datatype Faults = Faults(fail: set<OpKey>, lose: set<OpKey>, types: map<Service, string>)

  datatype Adapter = Adapter(
    objects: map<ObjectRef, DirectObject>,
    sequence: map<Service, nat>,
    results: map<OpKey, Reply>,
    timedOut: set<OpKey>,
    calls: seq<DirectRequest>)

  datatype Outcome =
    | Answered(reply: Reply)
    | DefiniteFailure(reason: string)
    | OutcomeUnknown
    | TransitionRejected(reason: string)

  function LastId(sequence: map<Service, nat>, service: Service): nat {
    if service in sequence then sequence[service] else 0
  }

  function NewSequence(sequence: map<Service, nat>, service: Service, count: nat): map<Service, nat> {
    if count == 0 then sequence else sequence[service := LastId(sequence, service) + count]
  }

  lemma NewSequenceStep(sequence: map<Service, nat>, service: Service, count: nat)
    ensures LastId(NewSequence(sequence, service, count), service) == LastId(sequence, service) + count
    ensures NewSequence(NewSequence(sequence, service, count), service, 1) == NewSequence(sequence, service, count + 1)
  {
    assert sequence[service := 0][service := 1] == sequence[service := 1];
  }

  // ---------- specification of one call ----------

  datatype Effect = Effect(objects: map<ObjectRef, DirectObject>, sequence: map<Service, nat>, outcome: Outcome)

  function NewContents(payload: Payload): seq<Content> {
    match payload
    case CampaignPayload(_, _, terms) => [CampaignContent(terms)]
    case GroupPayload(campaign, name, negatives) => [GroupContent(campaign, name, negatives)]
    case AdsPayload(group, items) => seq(|items|, i requires 0 <= i < |items| => AdContent(group, items[i]))
    case KeywordPayload(group, keyword) => [KeywordContent(group, keyword)]
    case IdsPayload(_) => []
    case IdPayload(_) => []
  }

  function NewType(types: map<Service, string>, service: Service, payload: Payload): string {
    if service in types then types[service]
    else
      match service
      case Campaigns => if payload.CampaignPayload? then payload.campaignType else "UNIFIED_CAMPAIGN"
      case AdGroups => "UNIFIED_AD_GROUP"
      case Ads => "TEXT_AD"
      case Keywords => "KEYWORD"
  }

  function NewState(service: Service, payload: Payload): DirectState {
    match service
    case Campaigns => if payload.CampaignPayload? then payload.state else Suspended
    case AdGroups => On
    case Ads => Draft
    case Keywords => Suspended
  }

  /** Objects created one after the other, each under the service's next identifier. */
  function AddAll(
    objects: map<ObjectRef, DirectObject>, last: nat, service: Service, actualType: string, state: DirectState,
    contents: seq<Content>)
    : (r: (map<ObjectRef, DirectObject>, seq<Seen>))
    decreases |contents|
  {
    if contents == [] then (objects, [])
    else
      var n := |contents| - 1;
      var before := AddAll(objects, last, service, actualType, state, contents[..n]);
      var seen := Seen(ObjectRef(service, last + 1 + n), DirectObject(actualType, state, contents[n]));
      (before.0[seen.ref := seen.item], before.1 + [seen])
  }

  /** The new objects get consecutive fresh identifiers, and every other object is left as it was. */
  lemma {:induction false} AddAllIsFresh(
    objects: map<ObjectRef, DirectObject>, last: nat, service: Service, actualType: string, state: DirectState,
    contents: seq<Content>)
    ensures var r := AddAll(objects, last, service, actualType, state, contents);
            && |r.1| == |contents|
            && (forall i :: 0 <= i < |contents| ==>
                  r.1[i] == Seen(ObjectRef(service, last + 1 + i), DirectObject(actualType, state, contents[i])))
            && (forall i :: 0 <= i < |contents| ==> r.1[i].ref in r.0 && r.0[r.1[i].ref] == r.1[i].item)
            && (forall ref :: ref in objects && !(ref.service == service && last < ref.number <= last + |contents|)
                              ==> ref in r.0 && r.0[ref] == objects[ref])
            && (forall ref :: ref in r.0 ==>
                  ref in objects || (ref.service == service && last < ref.number <= last + |contents|))
    decreases |contents|
  {
    if contents != [] {
      AddAllIsFresh(objects, last, service, actualType, state, contents[..|contents| - 1]);
    }
  }

  function CreatedOf(seen: seq<Seen>): (created: seq<Created>)
    ensures |created| == |seen|
    ensures forall i :: 0 <= i < |seen| ==> created[i] == Created(seen[i].ref, seen[i].item.actualType)
  {
    seq(|seen|, i requires 0 <= i < |seen| => Created(seen[i].ref, seen[i].item.actualType))
  }

  /** State changes in list order; a missing object stops the loop and leaves the earlier changes. */
  function MoveAll(objects: map<ObjectRef, DirectObject>, ids: seq<ObjectRef>, state: DirectState)
    : (r: (map<ObjectRef, DirectObject>, Option<seq<Seen>>))
  {
    if ids == [] then (objects, Some([]))
    else if ids[0] !in objects then (objects, None)
    else
      var moved := objects[ids[0]].(state := state);
      var rest := MoveAll(objects[ids[0] := moved], ids[1..], state);
      (rest.0, if rest.1.Some? then Some([Seen(ids[0], moved)] + rest.1.value) else None)
  }

  /** Moving touches only the listed objects, only their state, and succeeds when all of them exist. */
  lemma {:induction false} MoveAllMoves(objects: map<ObjectRef, DirectObject>, ids: seq<ObjectRef>, state: DirectState)
    ensures var r := MoveAll(objects, ids, state);
            && r.0.Keys == objects.Keys
            && (r.1.Some? ==> |r.1.value| == |ids| && forall i :: 0 <= i < |ids| ==> r.1.value[i].item.state == state)
            && (forall ref :: ref in objects && ref !in ids ==> r.0[ref] == objects[ref])
            && (r.1.Some? ==> forall ref :: ref in ids ==> ref in objects && r.0[ref] == objects[ref].(state := state))
            && ((forall ref :: ref in ids ==> ref in objects) ==> r.1.Some?)
  {
    if ids != [] && ids[0] in objects {
      var moved := objects[ids[0]].(state := state);
      MoveAllMoves(objects[ids[0] := moved], ids[1..], state);
      assert forall ref :: ref in ids ==> ref == ids[0] || ref in ids[1..];
      assert forall ref :: ref in ids[1..] ==> ref in ids;
    }
  }

  function ReadAll(objects: map<ObjectRef, DirectObject>, ids: seq<ObjectRef>): (r: Option<seq<Seen>>)
    ensures r.Some? <==> forall ref :: ref in ids ==> ref in objects
    ensures r.Some? ==> |r.value| == |ids| && forall i :: 0 <= i < |ids| ==>
                          ids[i] in objects && r.value[i] == Seen(ids[i], objects[ids[i]])
  {
    if forall ref <- ids :: ref in objects
    then Some(seq(|ids|, i requires 0 <= i < |ids| && ids[i] in objects => Seen(ids[i], objects[ids[i]])))
    else None
  }

  function ApplyAdd(types: map<Service, string>, a: Adapter, request: DirectRequest): Effect {
    var contents := NewContents(request.payload);
    var last := LastId(a.sequence, request.service);
    var added := AddAll(a.objects, last, request.service, NewType(types, request.service, request.payload),
                        NewState(request.service, request.payload), contents);
    Effect(added.0, NewSequence(a.sequence, request.service, |contents|),
           Answered(Reply(request.service, Add, CreatedOf(added.1), added.1)))
  }

  function ApplyMove(a: Adapter, request: DirectRequest, ids: seq<ObjectRef>, state: DirectState): Effect {
    var moved := MoveAll(a.objects, ids, state);
    Effect(moved.0, a.sequence,
           if moved.1.Some? then Answered(Reply(request.service, request.verb, [], moved.1.value))
           else DefiniteFailure("Unsupported fake Direct operation."))
  }

  function IdsOf(payload: Payload): seq<ObjectRef> {
    match payload
    case IdsPayload(ids) => ids
    case IdPayload(id) => [id]
    case _ => []
  }

  function Apply(types: map<Service, string>, a: Adapter, request: DirectRequest): Effect {
    match request.verb
    case Add => ApplyAdd(types, a, request)
    case Get =>
      var read := ReadAll(a.objects, IdsOf(request.payload));
      Effect(a.objects, a.sequence,
             if read.Some? then Answered(Reply(request.service, Get, [], read.value))
             else TransitionRejected("DIRECT_OBJECT_NOT_FOUND"))
    case Moderate => ApplyMove(a, request, IdsOf(request.payload), Moderation)
    case Resume => ApplyMove(a, request, IdsOf(request.payload), On)
    case Delete =>
      Effect(a.objects - (set ref | ref in IdsOf(request.payload)), a.sequence,
             Answered(Reply(request.service, Delete, [], [])))
  }

  /** One call: answered from memory, refused, applied, or applied with its response lost. */
  function Invoke(faults: Faults, a: Adapter, request: DirectRequest): (Adapter, Outcome) {
    if request.key in a.results then
      (a, Answered(a.results[request.key]))
    else
      var called := a.(calls := a.calls + [request]);
      if request.key in faults.fail then
        (called, DefiniteFailure("FAKE_DIRECT_OPERATION_FAILED"))
      else
        var effect := Apply(faults.types, a, request);
        var applied := called.(objects := effect.objects, sequence := effect.sequence);
        if !effect.outcome.Answered? then
          (applied, effect.outcome)
        else
          var stored := if request.verb == Get then applied
                        else applied.(results := a.results[request.key := effect.outcome.reply]);
          if request.key in faults.lose && request.key !in a.timedOut then
            (stored.(timedOut := a.timedOut + {request.key}), OutcomeUnknown)
          else
            (stored, effect.outcome)
  }

  // ---------- the adapter object ----------

  class FakeDirectManagementAdapter {
    const faults: Faults
    var objects: map<ObjectRef, DirectObject>
    var sequence: map<Service, nat>
    var results: map<OpKey, Reply>
    var timedOut: set<OpKey>
    var calls: seq<DirectRequest>

    constructor (faults: Faults)
      ensures this.faults == faults
      ensures View() == Adapter(map[], map[], map[], {}, [])
    {
      this.faults := faults;
      objects, sequence, results, timedOut, calls := map[], map[], map[], {}, [];
    }

    function View(): Adapter
      reads this
    {
      Adapter(objects, sequence, results, timedOut, calls)
    }

    method NextId(service: Service) returns (ref: ObjectRef)
      modifies this`sequence
      ensures var last := LastId(old(sequence), service);
              ref == ObjectRef(service, last + 1) && sequence == NewSequence(old(sequence), service, 1)
    {
      var number := LastId(sequence, service) + 1;
      sequence := sequence[service := number];
      ref := ObjectRef(service, number);
    }

    /** Inserts the new objects one by one, as the adapter's loop does. */
    method AddObjects(service: Service, actualType: string, state: DirectState, contents: seq<Content>)
      returns (seen: seq<Seen>)
      modifies this`objects, this`sequence
      ensures var last := LastId(old(sequence), service);
              (objects, seen) == AddAll(old(objects), last, service, actualType, state, contents)
              && sequence == NewSequence(old(sequence), service, |contents|)
    {
      ghost var last := LastId(sequence, service);
      seen := [];
      for i := 0 to |contents|
        invariant sequence == NewSequence(old(sequence), service, i)
        invariant (objects, seen) == AddAll(old(objects), last, service, actualType, state, contents[..i])
      {
        NewSequenceStep(old(sequence), service, i);
        var ref := NextId(service);
        var item := DirectObject(actualType, state, contents[i]);
        assert contents[..i + 1][..i] == contents[..i];
        objects := objects[ref := item];
        seen := seen + [Seen(ref, item)];
      }
      assert contents[..|contents|] == contents;
    }

    /** Moves the listed objects to a state one by one, stopping at a missing object. */
    method MoveObjects(ids: seq<ObjectRef>, state: DirectState) returns (readback: Option<seq<Seen>>)
      modifies this`objects
      ensures (objects, readback) == MoveAll(old(objects), ids, state)
    {
      var seen: seq<Seen> := [];
      ghost var whole := MoveAll(objects, ids, state);
      assert ids[0..] == ids && (whole.1.Some? ==> seen + whole.1.value == whole.1.value);
      for i := 0 to |ids|
        invariant var rest := MoveAll(objects, ids[i..], state);
                  whole == (rest.0, if rest.1.Some? then Some(seen + rest.1.value) else None)
      {
        assert ids[i..][0] == ids[i] && ids[i..][1..] == ids[i + 1..];
        if ids[i] !in objects {
          return None;
        }
        var moved := objects[ids[i]].(state := state);
        objects := objects[ids[i] := moved];
        ghost var rest := MoveAll(objects, ids[i + 1..], state);
        if rest.1.Some? {
          assert seen + ([Seen(ids[i], moved)] + rest.1.value) == (seen + [Seen(ids[i], moved)]) + rest.1.value;
        }
        seen := seen + [Seen(ids[i], moved)];
      }
      assert ids[|ids|..] == [] && seen + [] == seen;
      readback := Some(seen);
    }

    method ApplyRequest(request: DirectRequest) returns (outcome: Outcome)
      modifies this`objects, this`sequence
      ensures var effect := Apply(faults.types, old(View()), request);
              View() == old(View()).(objects := effect.objects, sequence := effect.sequence)
              && outcome == effect.outcome
    {
      match request.verb
      case Add =>
        assert Apply(faults.types, View(), request) == ApplyAdd(faults.types, View(), request);
        var seen := AddObjects(request.service, NewType(faults.types, request.service, request.payload),
                               NewState(request.service, request.payload), NewContents(request.payload));
        outcome := Answered(Reply(request.service, Add, CreatedOf(seen), seen));
      case Get =>
        var read := ReadAll(objects, IdsOf(request.payload));
        outcome := if read.Some? then Answered(Reply(request.service, Get, [], read.value))
                   else TransitionRejected("DIRECT_OBJECT_NOT_FOUND");
      case Moderate =>
        var readback := MoveObjects(IdsOf(request.payload), Moderation);
        outcome := if readback.Some? then Answered(Reply(request.service, request.verb, [], readback.value))
                   else DefiniteFailure("Unsupported fake Direct operation.");
      case Resume =>
        var readback := MoveObjects(IdsOf(request.payload), On);
        outcome := if readback.Some? then Answered(Reply(request.service, request.verb, [], readback.value))
                   else DefiniteFailure("Unsupported fake Direct operation.");
      case Delete =>
        objects := objects - (set ref | ref in IdsOf(request.payload));
        outcome := Answered(Reply(request.service, Delete, [], []));
    }

    /** One call, in the order the adapter works: remembered result, call log, failure, effect, lost response. */
    method InvokeRequest(request: DirectRequest) returns (outcome: Outcome)
      modifies this
      ensures (View(), outcome) == Invoke(faults, old(View()), request)
    {
      if request.key in results {
        return Answered(results[request.key]);
      }
      calls := calls + [request];
      if request.key in faults.fail {
        return DefiniteFailure("FAKE_DIRECT_OPERATION_FAILED");
      }
      outcome := ApplyRequest(request);
      if !outcome.Answered? {
        return;
      }
      if request.verb != Get {
        results := results[request.key := outcome.reply];
      }
      if request.key in faults.lose && request.key !in timedOut {
        timedOut := timedOut + {request.key};
        outcome := OutcomeUnknown;
      }
    }
  }
}
