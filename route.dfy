/** The two composed endpoints of the `/slack` router: the DM broadcast
    (`POST /send-message`) and the daily summary (`GET /summarize`). */
module Route {
  import opened Common
  import opened GetUserReplies
  import opened Summarizer
  import opened SendMessage

  // ---------------------------------------------------------------------
  // `send_message_endpoint`
  // ---------------------------------------------------------------------

  const EmptyTargets: string := "user_ids cannot be empty"
  const AllFailed: string := "Failed to send message to all users"

  /** The body of an unhandled exception's response. */
  const InternalServerError: string := "Internal Server Error"

  /** `send_message_endpoint`: reject an empty id list, fan the message out,
      and fail when no target at all was reached. `attempt(i)` is the outcome
      of the attempt on `userIds[i]`. */
  function SendMessageEndpoint(userIds: seq<string>, message: string, attempt: nat -> SendOutcome)
    : (r: Result<DeliveryReport, HttpError>)
    // an empty list is refused before anything is sent
    ensures userIds == [] ==> r == Failure(HttpError(400, EmptyTargets))
    // an exception other than a Slack API error escapes the handler
    ensures userIds != [] && FirstOtherError(|userIds|, attempt).Some?
            ==> r == Failure(HttpError(500, InternalServerError))
    // every target rejected by the Slack API
    ensures userIds != [] && FirstOtherError(|userIds|, attempt).None?
            && (forall j :: 0 <= j < |userIds| ==> attempt(j).ApiError?)
            ==> r == Failure(HttpError(500, AllFailed))
    // success exactly when at least one target was reached and nothing escaped
    ensures r.Success? <==> userIds != [] && FirstOtherError(|userIds|, attempt).None?
                            && exists j :: 0 <= j < |userIds| && attempt(j).Delivered?
    // and then the partition is returned unchanged
    ensures r.Success? ==> r.value == DeliveryReport(Successes(userIds, attempt), Failures(userIds, attempt))
  {
    if userIds == [] then Failure(HttpError(400, EmptyTargets))
    else
      match DirectMessageResult(Many(userIds), attempt)
      case Failure(_) => Failure(HttpError(500, InternalServerError))
      case Success(results) =>
        AllFailedIff(userIds, attempt);
        if |results.failed| == |userIds| then Failure(HttpError(500, AllFailed))
        else Success(results)
  }

  /** One failure out of three sends: the call succeeds with the two
      deliveries and the one failure, in input order. */
  lemma {:induction false} OneOfThreeFails(a: string, b: string, c: string, attempt: nat -> SendOutcome)
    requires attempt(0).Delivered? && attempt(1).ApiError? && attempt(2).Delivered?
    ensures var r := SendMessageEndpoint([a, b, c], "hello", attempt);
            && r.Success?
            && r.value.successful == [Delivery(a, attempt(0).data), Delivery(c, attempt(2).data)]
            && r.value.failed == [FailedDelivery(b, attempt(1).error)]
  {
    var ids := [a, b, c];
    assert ids[..2] == [a, b] && ids[..2][..1] == [a] && ids[..2][..1][..0] == [];
    assert FirstOtherError(3, attempt).None?;
    assert Successes([a], attempt) == [Delivery(a, attempt(0).data)];
    assert Successes([a, b], attempt) == [Delivery(a, attempt(0).data)];
    assert Failures([a], attempt) == [];
    assert Failures([a, b], attempt) == [FailedDelivery(b, attempt(1).error)];
  }

  // ---------------------------------------------------------------------
  // `get_summary`
  // ---------------------------------------------------------------------

  const DefaultLastHours: int := 24

  /** What request validation answers for `last_hours` below 1. */
  const BelowMinimum: string := "Input should be greater than or equal to 1"

  const SummaryFailurePrefix: string := "Failed to generate summary: "

  /** `str(e)` of an `HTTPException`: its status code, a colon, its detail. */
  function ExceptionText(e: HttpError): (s: string)
    ensures exists k :: 0 < k < |s| - 1 && s[..k] == IntToString(e.status) && s[k..k + 2] == ": "
                        && s[k + 2..] == e.detail
  {
    var s := IntToString(e.status) + ": " + e.detail;
    assert s[..|IntToString(e.status)|] == IntToString(e.status);
    s
  }

  /** The endpoint's answer: the fields it sets itself, then every field of
      the summary result (`**summary_result`), whose `status` is the one
      that stays. */
  datatype SummaryResponse = SummaryResponse(
    status: string,
    timeRangeHours: int,
    slackMessage: string,
    slackPosted: bool,
    slackTimestamp: Option<string>,
    summary: SummaryReport)

  /** `get_summary`. `lastHours` is the query parameter (`None` when it is
      absent); `store`, `now` and `iso` go to the replies query, `generate`
      and `minuteStamp` to the summariser, and `post` is the Slack post: the
      `ts` of the posted message, if any, or the message of the exception it
      raises. */
  function GetSummary(lastHours: Option<int>, store: Result<seq<Reply>, string>, now: int,
                      iso: int -> string, generate: string -> Result<string, string>,
                      minuteStamp: string -> string, post: string -> Result<Option<string>, string>)
    : (r: Result<SummaryResponse, HttpError>)
    // validation: an explicit value below 1 is refused before anything runs
    ensures lastHours.Some? && lastHours.value < 1 ==> r == Failure(HttpError(422, BelowMinimum))
    // every failure past validation is one 500 with the prefixed message
    ensures r.Failure? ==> r.error.status == 422 || r.error.status == 500
    ensures r.Failure? && r.error.status == 500 ==>
              |r.error.detail| >= |SummaryFailurePrefix|
              && r.error.detail[..|SummaryFailurePrefix|] == SummaryFailurePrefix
    ensures lastHours.GetOr(DefaultLastHours) >= 1 && store.Failure?
            ==> r == Failure(HttpError(500, SummaryFailurePrefix + ExceptionText(HttpError(500, "Internal server error"))))
    // success: the window, the summary of exactly that window, its Slack
    // rendering for the same number of hours, and the posted timestamp
    ensures r.Success? ==>
              var h := lastHours.GetOr(DefaultLastHours);
              var window := GetUserReplies.GetUserReplies(store, Some(h), now, iso);
              && h >= 1 && window.Success?
              && r.value.summary == SummaryOf(window.value, generate, minuteStamp)
              && r.value.timeRangeHours == h
              && r.value.slackMessage == SlackReport(r.value.summary, h)
              && post(r.value.slackMessage) == Success(r.value.slackTimestamp)
              && r.value.slackPosted
              && r.value.status == "success"
    ensures lastHours.GetOr(DefaultLastHours) >= 1 && store.Success? ==>
              var h := lastHours.GetOr(DefaultLastHours);
              var report := SummaryOf(GetUserReplies.GetUserReplies(store, Some(h), now, iso).value, generate, minuteStamp);
              match post(SlackReport(report, h))
              case Success(_) => r.Success?
              case Failure(e) => r == Failure(HttpError(500, SummaryFailurePrefix + e))
  {
    var h := lastHours.GetOr(DefaultLastHours);
    if h < 1 then Failure(HttpError(422, BelowMinimum))
    else
      match GetUserReplies.GetUserReplies(store, Some(h), now, iso)
      case Failure(e) => Failure(HttpError(500, SummaryFailurePrefix + ExceptionText(e)))
      case Success(repliesData) =>
        var summaryResult := SummaryOf(repliesData, generate, minuteStamp);
        var slackMessage := SlackReport(summaryResult, h);
        match post(slackMessage)
        case Failure(e) => Failure(HttpError(500, SummaryFailurePrefix + e))
        case Success(ts) => Success(SummaryResponse(summaryResult.status, h, slackMessage, true, ts, summaryResult))
  }

  /** A successful summary counts every reply of the window and one entry
      per distinct sender, and its Slack text carries a section for each. */
  lemma SummaryCoversWindow(lastHours: Option<int>, store: Result<seq<Reply>, string>, now: int,
                            iso: int -> string, generate: string -> Result<string, string>,
                            minuteStamp: string -> string, post: string -> Result<Option<string>, string>)
    requires GetSummary(lastHours, store, now, iso, generate, minuteStamp, post).Success?
    ensures var resp := GetSummary(lastHours, store, now, iso, generate, minuteStamp, post).value;
            var kept := ProjectAll(Filter(store.value, Some(resp.timeRangeHours), now), iso);
            && resp.summary.totalMessages == |Filter(store.value, Some(resp.timeRangeHours), now)|
            && Keys(resp.summary.summaries) == FirstSeen(Names(kept))
            && (kept == [] <==> resp.slackMessage == NoUpdatesReport(resp.timeRangeHours))
  {
    var resp := GetSummary(lastHours, store, now, iso, generate, minuteStamp, post).value;
    NoUpdatesIff(resp.summary, resp.timeRangeHours);
  }
}
