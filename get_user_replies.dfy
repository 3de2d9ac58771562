/** The replies listing: an optional trailing window over the stored rows,
    then a one-to-one projection of each kept row into a response record. */
module GetUserReplies {
  import opened Common

  /** One element of the `replies` list of the response; `timestamp` is the
      row's instant rendered as ISO-8601 with a trailing `Z`. */
  datatype ReplyRecord = ReplyRecord(id: nat, userName: string, userId: string, message: string, timestamp: string)

  /** The `{count, replies}` response. */
  datatype RepliesWindow = RepliesWindow(count: int, replies: seq<ReplyRecord>)

  const SecondsPerHour := 3600

  /** The filter `UserReply.timestamp >= utcnow() - timedelta(hours=last_hours)`,
      or no filter at all when `last_hours` is `None`. */
  predicate InWindow(r: Reply, lastHours: Option<int>, now: int) {
    lastHours.None? || r.timestamp >= now - lastHours.value * SecondsPerHour
  }

  /** The query result: the stored rows that pass the window, in retrieval
      order. */
  function Filter(rows: seq<Reply>, lastHours: Option<int>, now: int): (kept: seq<Reply>)
    ensures |kept| <= |rows|
    ensures forall x :: x in kept <==> x in rows && InWindow(x, lastHours, now)
    ensures lastHours.None? ==> kept == rows
    decreases |rows|
  {
    if rows == [] then []
    else
      var last := rows[|rows| - 1];
      var init := rows[..|rows| - 1];
      assert rows == init + [last];
      Filter(init, lastHours, now) + (if InWindow(last, lastHours, now) then [last] else [])
  }

  /** The filter keeps the store's order: filtering a concatenation is the
      concatenation of the filtered parts, so the result is a subsequence. */
  lemma {:induction false} FilterAppend(a: seq<Reply>, b: seq<Reply>, lastHours: Option<int>, now: int)
    ensures Filter(a + b, lastHours, now) == Filter(a, lastHours, now) + Filter(b, lastHours, now)
    decreases |b|
  {
    if b == [] {
      assert a + b == a;
    } else {
      var b' := b[..|b| - 1];
      assert (a + b)[..|a + b| - 1] == a + b';
      FilterAppend(a, b', lastHours, now);
    }
  }

  /** The projection of one row: every column kept as is, the instant
      rendered by `iso` (`datetime.isoformat`) followed by `"Z"`. */
  function Project(r: Reply, iso: int -> string): (rec: ReplyRecord)
    ensures rec.id == r.id && rec.userName == r.userName && rec.userId == r.userId
    ensures rec.message == r.message
    ensures |rec.timestamp| >= 1 && rec.timestamp[|rec.timestamp| - 1] == 'Z'
    ensures rec.timestamp[..|rec.timestamp| - 1] == iso(r.timestamp)
  {
    ReplyRecord(r.id, r.userName, r.userId, r.message, iso(r.timestamp) + "Z")
  }

  function ProjectAll(rows: seq<Reply>, iso: int -> string): (recs: seq<ReplyRecord>)
    ensures |recs| == |rows|
    ensures forall i :: 0 <= i < |rows| ==> recs[i] == Project(rows[i], iso)
  {
    seq(|rows|, i requires 0 <= i < |rows| => Project(rows[i], iso))
  }

  /** `get_user_replies`: `store` is what `query.all()` returns, or the
      storage error it raises, which becomes a generic 500. */
  function GetUserReplies(store: Result<seq<Reply>, string>, lastHours: Option<int>, now: int,
                          iso: int -> string): (r: Result<RepliesWindow, HttpError>)
    ensures store.Failure? <==> r.Failure?
    ensures r.Failure? ==> r.error == HttpError(500, "Internal server error")
    ensures r.Success? ==> r.value.count == |r.value.replies|
    ensures r.Success? ==> r.value.replies == ProjectAll(Filter(store.value, lastHours, now), iso)
    ensures r.Success? && lastHours.None? ==> |r.value.replies| == |store.value|
  {
    match store
    case Failure(_) => Failure(HttpError(500, "Internal server error"))
    case Success(rows) =>
      var data := ProjectAll(Filter(rows, lastHours, now), iso);
      Success(RepliesWindow(|data|, data))
  }

  /** The window is inclusive at its start: a row stamped exactly
      `last_hours` hours ago is returned. */
  lemma WindowBoundaryInclusive(r: Reply, h: int, now: int)
    requires r.timestamp == now - h * SecondsPerHour
    ensures Filter([r], Some(h), now) == [r]
  {
    assert [r][..0] == [];
  }

  /** Rows at now-3h, now-1h and now with `last_hours = 2`: exactly the
      last two are returned, in order. */
  lemma {:induction false} TwoHourWindowExample(a: Reply, b: Reply, c: Reply, now: int)
    requires a.timestamp == now - 3 * SecondsPerHour
    requires b.timestamp == now - 1 * SecondsPerHour
    requires c.timestamp == now
    ensures Filter([a, b, c], Some(2), now) == [b, c]
  {
    assert [a, b, c] == [a] + [b, c];
    FilterAppend([a], [b, c], Some(2), now);
    assert [b, c] == [b] + [c];
    FilterAppend([b], [c], Some(2), now);
    assert [a][..0] == [] && [b][..0] == [] && [c][..0] == [];
  }
}
