/** The webhook event classifier: decides, in order of precedence, between
    the URL-verification echo, `{"status": "ignored"}` and `{"status": "ok"}`,
    and whether the event is a DM reply to hand to ingestion. */
module SlackConnection {
  import opened Common
  import UserReplyService

  /** The `event` object of an `event_callback` payload. Each field is
      `None` when the key is absent. */
  datatype Event = Event(
    eventType: Option<string>,
    botId: Option<string>,
    subtype: Option<string>,
    channelType: Option<string>,
    user: Option<string>,
    text: Option<string>,
    ts: Option<string>,
    channel: Option<string>)

  /** A decoded webhook payload. */
  datatype Payload = Payload(payloadType: Option<string>, challenge: Option<string>, event: Option<Event>)

  /** `payload.get("event", {})` when the key is absent: an event with no keys. */
  const EmptyEvent := Event(None, None, None, None, None, None, None, None)

  /** The arguments of the one `store_user_reply` call. */
  datatype StoreRequest = StoreRequest(userId: string, message: string, ts: string, channelId: string)

  /** The response body: `{"challenge": c}`, `{"status": "ok"}` or `{"status": "ignored"}`. */
  datatype Ack = Challenge(token: Option<string>) | StatusOk | StatusIgnored

  /** The classifier's decision: what to answer and what (if anything) to store. */
  datatype Decision = Decision(ack: Ack, store: Option<StoreRequest>)

  function EventOf(p: Payload): Event {
    p.event.GetOr(EmptyEvent)
  }

  /** An `event_callback` carrying a `message` event. */
  predicate IsMessageEvent(p: Payload) {
    p.payloadType == Some("event_callback") && EventOf(p).eventType == Some("message")
  }

  /** A message event with neither a (truthy) bot marker nor a (truthy) subtype. */
  predicate IsHumanDm(p: Payload) {
    && IsMessageEvent(p)
    && !Truthy(EventOf(p).botId) && !Truthy(EventOf(p).subtype)
    && EventOf(p).channelType == Some("im")
  }

  /** A human DM that also carries `user`, `ts` and `channel`. */
  predicate HasRequiredKeys(e: Event) {
    e.user.Some? && e.ts.Some? && e.channel.Some?
  }

  /** `handle_slack_connection`: `body` is the decoded JSON payload of the
      request, or the text of the decoding error. A missing key of an `im`
      event raises `KeyError`, which the handler turns into a 500 whose detail
      is the quoted key name. */
  function Classify(body: Result<Payload, string>): (r: Result<Decision, HttpError>)
    // an undecodable body is a server error carrying the decoder's message
    ensures body.Failure? ==> r == Failure(HttpError(500, body.error))
    // the verification handshake wins over every other rule
    ensures body.Success? && body.value.payloadType == Some("url_verification")
            ==> r == Success(Decision(Challenge(body.value.challenge), None))
    // bot echoes and edits/deletions are ignored
    ensures body.Success? && IsMessageEvent(body.value)
            && (Truthy(EventOf(body.value).botId) || Truthy(EventOf(body.value).subtype))
            ==> r == Success(Decision(StatusIgnored, None))
    // non-DM message events are acknowledged and not stored
    ensures body.Success? && IsMessageEvent(body.value)
            && !Truthy(EventOf(body.value).botId) && !Truthy(EventOf(body.value).subtype)
            && EventOf(body.value).channelType != Some("im")
            ==> r == Success(Decision(StatusOk, None))
    // other event types are acknowledged, other payload types ignored
    ensures body.Success? && body.value.payloadType == Some("event_callback") && !IsMessageEvent(body.value)
            ==> r == Success(Decision(StatusOk, None))
    ensures body.Success? && body.value.payloadType !in {Some("url_verification"), Some("event_callback")}
            ==> r == Success(Decision(StatusIgnored, None))
    // a DM with a missing key is an error, whatever its text
    ensures body.Success? && IsHumanDm(body.value) && !HasRequiredKeys(EventOf(body.value))
            ==> r.Failure? && r.error.status == 500
    // a DM whose text is blank is acknowledged and not stored
    ensures body.Success? && IsHumanDm(body.value) && HasRequiredKeys(EventOf(body.value))
            && Strip(EventOf(body.value).text.GetOr("")) == ""
            ==> r == Success(Decision(StatusOk, None))
    // errors come only from the body or from a DM missing a key
    ensures r.Failure? ==> body.Failure? || (IsHumanDm(body.value) && !HasRequiredKeys(EventOf(body.value)))
    // a store request is made exactly for a complete human DM with non-blank
    // text, it carries the event's fields and the stripped text, and the
    // answer is then `ok`
    ensures r.Success? && r.value.store.Some? <==>
            body.Success? && IsHumanDm(body.value) && HasRequiredKeys(EventOf(body.value))
            && Strip(EventOf(body.value).text.GetOr("")) != ""
    ensures r.Success? && r.value.store.Some? ==>
            var e := EventOf(body.value);
            && r.value.ack == StatusOk
            && r.value.store.value
               == StoreRequest(e.user.value, Strip(e.text.GetOr("")), e.ts.value, e.channel.value)
  {
    match body
    case Failure(detail) => Failure(HttpError(500, detail))
    case Success(p) =>
      if p.payloadType == Some("url_verification") then
        Success(Decision(Challenge(p.challenge), None))
      else if p.payloadType == Some("event_callback") then
        var e := EventOf(p);
        if e.eventType == Some("message") then
          if Truthy(e.botId) || Truthy(e.subtype) then
            Success(Decision(StatusIgnored, None))
          else if e.channelType == Some("im") then
            // the keys are read in this order, before the text is looked at
            if e.user.None? then Failure(HttpError(500, "'user'"))
            else
              var text := Strip(e.text.GetOr(""));
              if e.ts.None? then Failure(HttpError(500, "'ts'"))
              else if e.channel.None? then Failure(HttpError(500, "'channel'"))
              else if text != "" then
                Success(Decision(StatusOk, Some(StoreRequest(e.user.value, text, e.ts.value, e.channel.value))))
              else Success(Decision(StatusOk, None))
          else Success(Decision(StatusOk, None))
        else Success(Decision(StatusOk, None))
      else Success(Decision(StatusIgnored, None))
  }

  /** The handshake echoes the challenge token verbatim, whatever else the
      payload holds. */
  lemma ChallengeEchoedVerbatim(p: Payload, token: string)
    requires p.payloadType == Some("url_verification") && p.challenge == Some(token)
    ensures Classify(Success(p)) == Success(Decision(Challenge(Some(token)), None))
  {
  }

  /** Text made only of whitespace never leads to a stored reply. */
  lemma WhitespaceTextNotStored(p: Payload)
    requires EventOf(p).text.Some?
    requires forall k :: 0 <= k < |EventOf(p).text.value| ==> IsSpace(EventOf(p).text.value[k])
    ensures Classify(Success(p)).Success? ==> Classify(Success(p)).value.store.None?
  {
    StripEmptyIff(EventOf(p).text.value);
  }

  /** The message handed to ingestion is never blank and never starts or
      ends with whitespace. */
  lemma StoredTextIsStripped(body: Result<Payload, string>)
    requires Classify(body).Success? && Classify(body).value.store.Some?
    ensures var m := Classify(body).value.store.value.message;
            m != "" && !IsSpace(m[0]) && !IsSpace(m[|m| - 1])
  {
    StripEnds(EventOf(body.value).text.GetOr(""));
  }

  /** The webhook endpoint end to end: classify, then hand a storable reply
      to ingestion with the collaborators' answers. Ingestion never fails the
      request, so the answer is the classifier's whatever the store does. */
  method HandleSlackConnection(store: UserReplyService.ReplyStore, body: Result<Payload, string>,
                               lookup: UserReplyService.Lookup, parseTs: string -> Option<int>,
                               now: int, commitError: Option<string>)
    returns (r: Result<Ack, HttpError>)
    requires store.Valid()
    modifies store
    ensures store.Valid()
    ensures Classify(body).Failure? ==> r == Failure(Classify(body).error)
    ensures Classify(body).Success? ==> r == Success(Classify(body).value.ack)
    ensures Classify(body).Failure? || Classify(body).value.store.None?
            ==> store.rows == old(store.rows) && store.nextId == old(store.nextId)
    ensures Classify(body).Success? && Classify(body).value.store.Some? ==>
            var q := Classify(body).value.store.value;
            var row := UserReplyService.NewRow(old(store.nextId), q.userId, q.message,
                                               q.ts, lookup, parseTs, now, commitError);
            && store.rows == old(store.rows) + UserReplyService.RowSeq(row)
            && store.nextId == old(store.nextId) + |UserReplyService.RowSeq(row)|
  {
    var decision := Classify(body);
    if decision.Failure? {
      return Failure(decision.error);
    }
    if decision.value.store.Some? {
      var q := decision.value.store.value;
      store.StoreUserReply(q.userId, q.message, q.ts, q.channelId, lookup, parseTs, now, commitError);
    }
    r := Success(decision.value.ack);
  }
}
