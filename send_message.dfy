/** Direct-message fan-out: open a DM with each target in turn and post the
    text, sorting each target into `successful` or `failed`. */
module SendMessage {
  import opened Common

  /** `user_ids`: one id, or a list of them. */
  datatype Targets = One(id: string) | Many(ids: seq<string>)

  /** What one attempt (open the DM, then post) yields: the posted message's
      response data, a `SlackApiError` with its `error` code, or any other
      exception, which is not caught. */
  datatype SendOutcome = Delivered(data: string) | ApiError(error: string) | OtherError(detail: string)

  datatype Delivery = Delivery(userId: string, data: string)
  datatype FailedDelivery = FailedDelivery(userId: string, error: string)

  /** `{"successful": [...], "failed": [...]}`. */
  datatype DeliveryReport = DeliveryReport(successful: seq<Delivery>, failed: seq<FailedDelivery>)

  /** A single string is treated as a list holding it. */
  function TargetIds(t: Targets): (ids: seq<string>)
    ensures t.One? ==> ids == [t.id]
    ensures t.Many? ==> ids == t.ids
  {
    match t
    case One(id) => [id]
    case Many(ids) => ids
  }

  /** The deliveries of the attempts on `ids`, in order; `attempt(i)` is the
      outcome of the attempt on `ids[i]`. */
  function Successes(ids: seq<string>, attempt: nat -> SendOutcome): seq<Delivery>
    decreases |ids|
  {
    if ids == [] then []
    else
      var i := |ids| - 1;
      Successes(ids[..i], attempt)
      + (if attempt(i).Delivered? then [Delivery(ids[i], attempt(i).data)] else [])
  }

  /** The Slack API failures of the attempts on `ids`, in order. */
  function Failures(ids: seq<string>, attempt: nat -> SendOutcome): seq<FailedDelivery>
    decreases |ids|
  {
    if ids == [] then []
    else
      var i := |ids| - 1;
      Failures(ids[..i], attempt)
      + (if attempt(i).ApiError? then [FailedDelivery(ids[i], attempt(i).error)] else [])
  }

  /** The first attempt among the first `n` that raised something other
      than a Slack API error. */
  function FirstOtherError(n: nat, attempt: nat -> SendOutcome): (k: Option<nat>)
    ensures k.Some? ==> k.value < n && attempt(k.value).OtherError?
                        && forall j :: 0 <= j < k.value ==> !attempt(j).OtherError?
    ensures k.None? ==> forall j :: 0 <= j < n ==> !attempt(j).OtherError?
    decreases n
  {
    if n == 0 then None
    else if FirstOtherError(n - 1, attempt).Some? then FirstOtherError(n - 1, attempt)
    else if attempt(n - 1).OtherError? then Some(n - 1)
    else None
  }

  /** What `send_direct_message` returns, or the exception that escapes it. */
  function DirectMessageResult(targets: Targets, attempt: nat -> SendOutcome): Result<DeliveryReport, string>
  {
    var ids := TargetIds(targets);
    match FirstOtherError(|ids|, attempt)
    case Some(k) => Failure(attempt(k).detail)
    case None => Success(DeliveryReport(Successes(ids, attempt), Failures(ids, attempt)))
  }

  /** `send_direct_message`. `message` is what every attempt posts; the
      attempts' outcomes are the collaborator's answers. */
  method SendDirectMessage(targets: Targets, message: string, attempt: nat -> SendOutcome)
    returns (r: Result<DeliveryReport, string>)
    ensures r == DirectMessageResult(targets, attempt)
  {
    var ids := TargetIds(targets);
    var successful: seq<Delivery> := [];
    var failed: seq<FailedDelivery> := [];
    for i := 0 to |ids|
      invariant FirstOtherError(i, attempt).None?
      invariant successful == Successes(ids[..i], attempt)
      invariant failed == Failures(ids[..i], attempt)
    {
      assert ids[..i + 1][..i] == ids[..i];
      match attempt(i) {
        case Delivered(data) =>
          successful := successful + [Delivery(ids[i], data)];
        case ApiError(error) =>
          failed := failed + [FailedDelivery(ids[i], error)];
        case OtherError(detail) =>
          return Failure(detail);
      }
    }
    assert ids[..|ids|] == ids;
    r := Success(DeliveryReport(successful, failed));
  }

  function SuccessIds(s: seq<Delivery>): seq<string> {
    seq(|s|, i requires 0 <= i < |s| => s[i].userId)
  }

  function FailureIds(f: seq<FailedDelivery>): seq<string> {
    seq(|f|, i requires 0 <= i < |f| => f[i].userId)
  }

  /** When only Slack API errors occur, every target, duplicates included,
      lands in exactly one of the two lists. */
  lemma {:induction false} PartitionIsExact(ids: seq<string>, attempt: nat -> SendOutcome)
    requires FirstOtherError(|ids|, attempt).None?
    ensures |Successes(ids, attempt)| + |Failures(ids, attempt)| == |ids|
    ensures multiset(SuccessIds(Successes(ids, attempt))) + multiset(FailureIds(Failures(ids, attempt)))
            == multiset(ids)
    decreases |ids|
  {
    if ids != [] {
      var i := |ids| - 1;
      PartitionIsExact(ids[..i], attempt);
      var s, f := Successes(ids[..i], attempt), Failures(ids[..i], attempt);
      assert ids == ids[..i] + [ids[i]];
      if attempt(i).Delivered? {
        assert SuccessIds(s + [Delivery(ids[i], attempt(i).data)]) == SuccessIds(s) + [ids[i]];
        assert Failures(ids, attempt) == f;
      } else {
        assert FailureIds(f + [FailedDelivery(ids[i], attempt(i).error)]) == FailureIds(f) + [ids[i]];
        assert Successes(ids, attempt) == s;
      }
    }
  }

  /** The positions, in increasing order, of the attempts among the first
      `n` that delivered. */
  function DeliveredAttempts(n: nat, attempt: nat -> SendOutcome): (idx: seq<nat>)
    ensures forall k :: 0 <= k < |idx| ==> idx[k] < n && attempt(idx[k]).Delivered?
    ensures forall k :: 0 < k < |idx| ==> idx[k - 1] < idx[k]
    ensures forall j :: 0 <= j < n && attempt(j).Delivered? ==> j in idx
    decreases n
  {
    if n == 0 then [] else DeliveredAttempts(n - 1, attempt) + (if attempt(n - 1).Delivered? then [n - 1] else [])
  }

  /** The positions, in increasing order, of the attempts among the first
      `n` that raised a Slack API error. */
  function FailedAttempts(n: nat, attempt: nat -> SendOutcome): (idx: seq<nat>)
    ensures forall k :: 0 <= k < |idx| ==> idx[k] < n && attempt(idx[k]).ApiError?
    ensures forall k :: 0 < k < |idx| ==> idx[k - 1] < idx[k]
    ensures forall j :: 0 <= j < n && attempt(j).ApiError? ==> j in idx
    decreases n
  {
    if n == 0 then [] else FailedAttempts(n - 1, attempt) + (if attempt(n - 1).ApiError? then [n - 1] else [])
  }

  /** `successful` keeps the input order: its k-th entry belongs to the k-th
      delivering attempt and carries that target's id and response data. */
  lemma {:induction false} SuccessesFollowInput(ids: seq<string>, attempt: nat -> SendOutcome)
    ensures |Successes(ids, attempt)| == |DeliveredAttempts(|ids|, attempt)|
    ensures forall k :: 0 <= k < |Successes(ids, attempt)| ==>
              var j := DeliveredAttempts(|ids|, attempt)[k];
              j < |ids| && Successes(ids, attempt)[k] == Delivery(ids[j], attempt(j).data)
    decreases |ids|
  {
    if ids != [] {
      var i := |ids| - 1;
      SuccessesFollowInput(ids[..i], attempt);
    }
  }

  /** `failed` keeps the input order: its k-th entry belongs to the k-th
      failing attempt and carries that target's id and the API error code. */
  lemma {:induction false} FailuresFollowInput(ids: seq<string>, attempt: nat -> SendOutcome)
    ensures |Failures(ids, attempt)| == |FailedAttempts(|ids|, attempt)|
    ensures forall k :: 0 <= k < |Failures(ids, attempt)| ==>
              var j := FailedAttempts(|ids|, attempt)[k];
              j < |ids| && Failures(ids, attempt)[k] == FailedDelivery(ids[j], attempt(j).error)
    decreases |ids|
  {
    if ids != [] {
      var i := |ids| - 1;
      FailuresFollowInput(ids[..i], attempt);
    }
  }

  /** An escaping exception aborts the whole call: no report is returned,
      and the error is that of the first such attempt. */
  lemma OtherErrorAborts(targets: Targets, attempt: nat -> SendOutcome, k: nat)
    requires k < |TargetIds(targets)| && attempt(k).OtherError?
    ensures DirectMessageResult(targets, attempt).Failure?
    ensures exists j :: 0 <= j <= k && attempt(j).OtherError?
                        && DirectMessageResult(targets, attempt).error == attempt(j).detail
  {
  }

  /** Every target fails exactly when every attempt raises a Slack API
      error, i.e. when the failed list is as long as the target list. */
  lemma {:induction false} AllFailedIff(ids: seq<string>, attempt: nat -> SendOutcome)
    requires FirstOtherError(|ids|, attempt).None?
    ensures |Failures(ids, attempt)| == |ids| <==> forall j :: 0 <= j < |ids| ==> attempt(j).ApiError?
    decreases |ids|
  {
    if ids != [] {
      var i := |ids| - 1;
      AllFailedIff(ids[..i], attempt);
      assert |Failures(ids[..i], attempt)| <= i by { PartitionIsExact(ids[..i], attempt); }
    }
  }
}
