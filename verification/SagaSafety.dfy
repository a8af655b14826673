/** What every event of the saga machine keeps, and what therefore holds after every run. */
module SagaSafety {
  import opened Basics
  import opened CampaignTypes
  import opened SagaStore

  // ---------- the shape of one saga's rows ----------

  /** How many of the first `n` steps are writes. */
  function WritesBefore(n: nat): nat {
    if n <= 5 then n else if n == 6 then 5 else 6
  }

  function WriteOrdinal(i: nat): nat {
    if i < 5 then i else 6
  }

  ghost predicate StepsArePrefix(record: SagaRecord) {
    && |record.steps| <= 8
    && forall i :: 0 <= i < |record.steps| ==> Ordinal(record.steps[i].step) == i
  }

  predicate NothingPending(record: SagaRecord) {
    |record.dispatches| == WritesBefore(|record.steps|)
  }

  /** The completed write steps, and at most one pending row for the step that comes next. */
  ghost predicate DispatchesFollowSteps(record: SagaRecord) {
    var n, d := |record.steps|, record.dispatches;
    var w := WritesBefore(n);
    && w <= |d| <= w + 1
    && (forall i :: 0 <= i < w ==> d[i].completed && Ordinal(d[i].step) == WriteOrdinal(i))
    && (|d| == w + 1 ==> IsWrite(d[w].step) && Ordinal(d[w].step) == n && !d[w].completed)
    && (forall i :: 0 <= i < |d| ==>
          && d[i].ordinal == Ordinal(d[i].step)
          && d[i].request.key == StepKey(record.plan.request.execution, d[i].step)
          && d[i].request.run == record.plan.request.run)
  }

  ghost predicate Shaped(record: SagaRecord) {
    && StepsArePrefix(record)
    && DispatchesFollowSteps(record)
    && (record.status == Applied ==> |record.steps| == |SAGA_STEPS|)
  }

  lemma {:induction false} FirstPendingAt(d: seq<DispatchRow>, w: nat)
    requires w <= |d| <= w + 1
    requires forall i :: 0 <= i < w ==> d[i].completed
    requires |d| == w + 1 ==> !d[w].completed
    ensures FirstPending(d) == if |d| == w then None else Some(d[w])
  {
    if w > 0 {
      FirstPendingAt(d[1..], w - 1);
    }
  }

  lemma PendingFirst(record: SagaRecord)
    requires Shaped(record)
    ensures FirstPending(record.dispatches) == if NothingPending(record) then None else Some(Last(record.dispatches))
  {
    FirstPendingAt(record.dispatches, WritesBefore(|record.steps|));
  }

  lemma NextIsDispatchedIfPending(record: SagaRecord, step: Step)
    requires Shaped(record) && IsWrite(step) && Ordinal(step) == |record.steps|
    ensures HasDispatch(record.dispatches, step) <==> !NothingPending(record)
  {
    var d, w := record.dispatches, WritesBefore(|record.steps|);
    if !NothingPending(record) {
      assert d[w] in d;
    }
  }

  // ---------- the transactions keep the shape ----------

  lemma ClaimShape(record: SagaRecord, request: DirectRequest, gateOpen: bool)
    requires Shaped(record)
    ensures var r := ClaimRecord(record, request, gateOpen);
            && Shaped(r.0)
            && r.0 == record.(dispatches := r.0.dispatches)
            && (r.0 != record ==>
                  r.1 == Ok(true) && request.key.StepKey? && NothingPending(record) && !NothingPending(r.0)
                  && r.0.dispatches == record.dispatches + [Last(r.0.dispatches)]
                  && Last(r.0.dispatches).request == request)
            && (request.key.StepKey? && r.1 == Ok(true) ==> r.0 != record)
  {
    hide Live, OfService, FirstPending;
    if |record.steps| < 8 && IsWrite(SAGA_STEPS[|record.steps|]) {
      NextIsDispatchedIfPending(record, SAGA_STEPS[|record.steps|]);
    }
  }

  lemma {:induction false} WithoutClaimKeeps(record: SagaRecord, request: DirectRequest, d: seq<DispatchRow>)
    requires forall i :: 0 <= i < |d| ==> !Cancellable(record, request, d[i])
    ensures WithoutClaim(record, request, d) == d
  {
    if d != [] {
      WithoutClaimKeeps(record, request, d[1..]);
    }
  }

  lemma {:induction false} WithoutClaimDropsLast(record: SagaRecord, request: DirectRequest, d: seq<DispatchRow>)
    requires d != []
    requires forall i :: 0 <= i < |d| - 1 ==> !Cancellable(record, request, d[i])
    requires Cancellable(record, request, Last(d))
    ensures WithoutClaim(record, request, d) == d[..|d| - 1]
  {
    if |d| > 1 {
      WithoutClaimDropsLast(record, request, d[1..]);
      assert d[..|d| - 1] == [d[0]] + d[1..][..|d[1..]| - 1];
    }
  }

  /** Cancelling removes at most the pending row, and only when it is the cancelled request's own. */
  lemma CancelShape(record: SagaRecord, request: DirectRequest)
    requires Shaped(record)
    ensures var r := CancelRecord(record, request);
            && Shaped(r)
            && r == record.(dispatches := r.dispatches)
            && (r != record ==> !NothingPending(record) && Last(record.dispatches).request == request
                                && r.dispatches == record.dispatches[..|record.dispatches| - 1])
  {
    var w := WritesBefore(|record.steps|);
    if !NothingPending(record) && Cancellable(record, request, record.dispatches[w]) {
      WithoutClaimDropsLast(record, request, record.dispatches);
    } else {
      WithoutClaimKeeps(record, request, record.dispatches);
    }
  }

  lemma CloseKeepsDispatches(d: seq<DispatchRow>, step: Step, s: Step)
    ensures HasDispatch(CloseDispatch(d, step), s) <==> HasDispatch(d, s)
  {
    var e := CloseDispatch(d, step);
    if HasDispatch(d, s) {
      var i :| 0 <= i < |d| && d[i].step == s;
      assert e[i].step == s;
    }
    if HasDispatch(e, s) {
      var i :| 0 <= i < |e| && e[i].step == s;
      assert d[i].step == s;
    }
  }

  lemma CompleteShape(record: SagaRecord, step: Step, response: Response)
    requires Shaped(record) && record.status == InFlight
    requires IsWrite(step) || NothingPending(record)
    requires |record.steps| == Ordinal(step)
    ensures var r := CompleteRecord(record, step, response);
            && (r.Ok? <==> !IsWrite(step) || !NothingPending(record))
            && (r.Ok? ==> Shaped(r.value) && NothingPending(r.value) && |r.value.steps| == |record.steps| + 1
                          && r.value == record.(steps := r.value.steps, dispatches := r.value.dispatches))
  {
    var r := CompleteRecord(record, step, response);
    PendingIsNext(record, step);
    if r.Ok? && IsWrite(step) {
      CloseShape(record, step);
      hide CloseDispatch, IsPending;
      assert r.value == record.(steps := record.steps + [StepRow(step, response)],
                                dispatches := CloseDispatch(record.dispatches, step));
    }
  }

  lemma CloseShape(record: SagaRecord, step: Step)
    requires Shaped(record) && !NothingPending(record) && Ordinal(step) == |record.steps|
    ensures var d, e := record.dispatches, CloseDispatch(record.dispatches, step);
            && |e| == |d| == WritesBefore(|record.steps| + 1)
            && (forall i :: 0 <= i < |d| ==> e[i] == d[i].(completed := true))
            && (forall i :: 0 <= i < |d| ==> Ordinal(e[i].step) == WriteOrdinal(i))
  {
  }

  /** Only the step after the completed ones can be pending, and only when a row is. */
  lemma PendingIsNext(record: SagaRecord, step: Step)
    requires Shaped(record)
    ensures IsPending(record.dispatches, step) <==> !NothingPending(record) && Ordinal(step) == |record.steps|
  {
    var d, w := record.dispatches, WritesBefore(|record.steps|);
    if !NothingPending(record) {
      assert d[w] in d;
    }
  }
}
