/** Reply ingestion: resolve the sender's display name best-effort, resolve
    the message instant with a fallback to the current time, and append one
    row to the store, or nothing at all when anything past the name lookup
    fails. Failures never reach the caller. */
module UserReplyService {
  import opened Common

  /** The `profile` object of a `users.info` response. */
  datatype Profile = Profile(displayNameNormalized: Option<string>, realNameNormalized: Option<string>)

  /** The `user` object of a `users.info` response; `None` fields are absent keys. */
  datatype SlackUser = SlackUser(name: Option<string>, profile: Option<Profile>)

  /** What `users_info` gives back: a `SlackApiError` with its error code,
      any other exception it raises (a network error, a timeout) with its
      message, or a response object with its `ok` flag and (maybe) its
      `user`. */
  datatype Lookup =
    | LookupApiError(error: string)
    | LookupRaised(detail: string)
    | LookupResponse(ok: bool, user: Option<SlackUser>)

  /** The lookup's own handler turns these into the name `"Unknown"`: a
      `SlackApiError`, or a response that is not `ok`. */
  predicate LookupRefused(lookup: Lookup) {
    lookup.LookupApiError? || (lookup.LookupResponse? && !lookup.ok)
  }

  /** The profile of a lookup that reported `ok`, when one is there. */
  predicate IsOkProfile(lookup: Lookup, u: SlackUser, p: Profile) {
    lookup == LookupResponse(true, Some(u)) && u.profile == Some(p)
  }

  /** The display name of the sender, or the exception that escapes the
      lookup's own handler, which catches only `SlackApiError`: whatever else
      `users_info` raises, or the `KeyError` of a malformed successful
      response. */
  function ResolveUserName(lookup: Lookup): (r: Result<string, string>)
    ensures r.Failure? <==> lookup.LookupRaised?
                            || (lookup.LookupResponse? && lookup.ok
                                && (lookup.user.None? || lookup.user.value.profile.None?))
    ensures lookup.LookupRaised? ==> r == Failure(lookup.detail)
    ensures LookupRefused(lookup) ==> r == Success("Unknown")
    ensures forall u, p :: IsOkProfile(lookup, u, p) && Truthy(p.displayNameNormalized)
              ==> r == Success(p.displayNameNormalized.value)
    ensures forall u, p ::
              (IsOkProfile(lookup, u, p) && !Truthy(p.displayNameNormalized) && Truthy(p.realNameNormalized))
              ==> r == Success(p.realNameNormalized.value)
    ensures forall u, p ::
              (IsOkProfile(lookup, u, p) && !Truthy(p.displayNameNormalized) && !Truthy(p.realNameNormalized))
              ==> r == Success(u.name.GetOr("Unknown"))
  {
    match lookup
    case LookupApiError(_) => Success("Unknown")
    case LookupRaised(detail) => Failure(detail)
    case LookupResponse(ok, user) =>
      if !ok then Success("Unknown")
      else if user.None? then Failure("'user'")
      else if user.value.profile.None? then Failure("'profile'")
      else
        var p := user.value.profile.value;
        if Truthy(p.displayNameNormalized) then Success(p.displayNameNormalized.value)
        else if Truthy(p.realNameNormalized) then Success(p.realNameNormalized.value)
        else Success(user.value.name.GetOr("Unknown"))
  }

  /** A resolved name always comes from the lookup, or is the literal
      fallback `"Unknown"`. */
  lemma ResolvedNameOrigin(lookup: Lookup)
    requires ResolveUserName(lookup).Success?
    ensures var name := ResolveUserName(lookup).value;
            name == "Unknown"
            || (lookup.LookupResponse? && lookup.user.Some?
                && (Some(name) == lookup.user.value.name
                    || (lookup.user.value.profile.Some?
                        && (Some(name) == lookup.user.value.profile.value.displayNameNormalized
                            || Some(name) == lookup.user.value.profile.value.realNameNormalized))))
  {
  }

  /** The instant stored for the reply: `ts` parsed as epoch seconds, or
      `now` when `float(ts)` raises. */
  function MessageTimestamp(ts: string, parseTs: string -> Option<int>, now: int): (t: int)
    ensures parseTs(ts).Some? ==> t == parseTs(ts).value
    ensures parseTs(ts).None? ==> t == now
  {
    parseTs(ts).GetOr(now)
  }

  /** The row that `store_user_reply` commits, given the collaborators'
      answers, or `None` when nothing is stored: the lookup raised something
      other than a Slack API error or its response was malformed
      (`commitError` is ignored then), or the commit raised. */
  function NewRow(id: nat, userId: string, message: string, ts: string, lookup: Lookup,
                  parseTs: string -> Option<int>, now: int, commitError: Option<string>): (row: Option<Reply>)
    ensures row.Some? <==> ResolveUserName(lookup).Success? && commitError.None?
    ensures row.Some? ==> (&& row.value.id == id && row.value.userId == userId
                           && row.value.message == message
                           && row.value.userName == ResolveUserName(lookup).value
                           && row.value.timestamp == MessageTimestamp(ts, parseTs, now))
  {
    match ResolveUserName(lookup)
    case Failure(_) => None
    case Success(name) =>
      if commitError.Some? then None
      else Some(Reply(id, name, userId, message, MessageTimestamp(ts, parseTs, now)))
  }

  /** An `ok=false` answer or a Slack API error still stores the reply,
      under the name `"Unknown"`. */
  lemma LookupFailureStillStores(id: nat, userId: string, message: string, ts: string, lookup: Lookup,
                                 parseTs: string -> Option<int>, now: int)
    requires LookupRefused(lookup)
    ensures NewRow(id, userId, message, ts, lookup, parseTs, now, None).Some?
    ensures NewRow(id, userId, message, ts, lookup, parseTs, now, None).value.userName == "Unknown"
  {
  }

  function RowSeq(row: Option<Reply>): seq<Reply> {
    if row.Some? then [row.value] else []
  }

  /** The `user_replies` table. `nextId` is the id the database assigns to
      the next inserted row. */
  class ReplyStore {
    var rows: seq<Reply>
    var nextId: nat

    /** Ids are assigned in increasing order and are all below `nextId`, so
        no two rows share one. */
    ghost predicate Valid()
      reads this
    {
      && (forall i :: 0 <= i < |rows| ==> rows[i].id < nextId)
      && (forall i, j :: 0 <= i < j < |rows| ==> rows[i].id < rows[j].id)
    }

    constructor ()
      ensures Valid() && rows == [] && nextId == 1
    {
      rows := [];
      nextId := 1;
    }

    /** `store_user_reply`. The lookup answer, the parser behind `float(ts)`,
        the clock and the commit outcome are the collaborators' answers.
        `channelId` is accepted and not stored. */
    method StoreUserReply(userId: string, message: string, ts: string, channelId: string,
                          lookup: Lookup, parseTs: string -> Option<int>, now: int,
                          commitError: Option<string>)
      requires Valid()
      modifies this
      ensures Valid()
      ensures var row := NewRow(old(nextId), userId, message, ts, lookup, parseTs, now, commitError);
              && rows == old(rows) + RowSeq(row)
              && nextId == old(nextId) + |RowSeq(row)|
    {
      var userName: string;
      var failed := false;
      match lookup {
        case LookupApiError(_) =>
          userName := "Unknown";
        case LookupRaised(_) =>
          // escapes the inner handler and is rolled back below
          userName := "";
          failed := true;
        case LookupResponse(ok, user) =>
          if !ok {
            userName := "Unknown";
          } else if user.None? || user.value.profile.None? {
            // `user_info["user"]["profile"]` raises KeyError: rolled back below
            userName := "";
            failed := true;
          } else {
            var p := user.value.profile.value;
            if Truthy(p.displayNameNormalized) {
              userName := p.displayNameNormalized.value;
            } else if Truthy(p.realNameNormalized) {
              userName := p.realNameNormalized.value;
            } else {
              userName := user.value.name.GetOr("Unknown");
            }
          }
      }
      if failed {
        return;
      }
      assert ResolveUserName(lookup) == Success(userName);
      var messageTimestamp: int;
      var parsed := parseTs(ts);
      if parsed.Some? {
        messageTimestamp := parsed.value;
      } else {
        messageTimestamp := now;
      }
      var reply := Reply(nextId, userName, userId, message, messageTimestamp);
      if commitError.None? {
        rows := rows + [reply];
        nextId := nextId + 1;
      }
    }
  }
}
