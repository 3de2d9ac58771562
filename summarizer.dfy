/** The summarisation engine and the report formatter: group the window's
    replies by sender, build one prompt per sender, ask the text-generation
    backend for each sender in isolation, assemble the totals, and render
    the report posted to Slack. */
module Summarizer {
  import opened Common
  import opened GetUserReplies

  // ---------------------------------------------------------------------
  // Grouping by sender (`_group_messages_by_user`)
  // ---------------------------------------------------------------------

  /** An insertion-ordered dictionary from sender name to that sender's
      replies, as a list of (key, bucket) pairs. */
  type Groups = seq<(string, seq<ReplyRecord>)>

  function Keys<V>(g: seq<(string, V)>): (ks: seq<string>)
    ensures |ks| == |g| && forall i :: 0 <= i < |g| ==> ks[i] == g[i].0
  {
    seq(|g|, i requires 0 <= i < |g| => g[i].0)
  }

  /** The position of key `k` in `g`, or `|g|` when `k` is not a key. */
  function KeyIndex<V>(g: seq<(string, V)>, k: string): (i: nat)
    ensures i <= |g|
    ensures i < |g| ==> g[i].0 == k
    ensures forall j :: 0 <= j < i ==> g[j].0 != k
    decreases |g|
  {
    if g == [] then 0 else if g[0].0 == k then 0 else 1 + KeyIndex(g[1..], k)
  }

  /** One step of the grouping loop: append `r` to its sender's bucket,
      opening the bucket at the end when the sender is new. */
  function AddReply(g: Groups, r: ReplyRecord): Groups {
    var i := KeyIndex(g, r.userName);
    if i == |g| then g + [(r.userName, [r])] else g[i := (g[i].0, g[i].1 + [r])]
  }

  /** The dictionary the grouping loop builds from `replies`. */
  function Grouped(replies: seq<ReplyRecord>): Groups
    decreases |replies|
  {
    if replies == [] then []
    else AddReply(Grouped(replies[..|replies| - 1]), replies[|replies| - 1])
  }

  /** `_group_messages_by_user`. */
  method GroupMessagesByUser(replies: seq<ReplyRecord>) returns (userGroups: Groups)
    ensures userGroups == Grouped(replies)
  {
    userGroups := [];
    for i := 0 to |replies|
      invariant userGroups == Grouped(replies[..i])
    {
      assert replies[..i + 1][..i] == replies[..i];
      assert Grouped(replies[..i + 1]) == AddReply(userGroups, replies[i]);
      var reply := replies[i];
      var userName := reply.userName;
      var k := KeyIndex(userGroups, userName);
      ghost var before := userGroups;
      if k == |userGroups| {
        userGroups := userGroups + [(userName, [])];
      }
      assert userGroups[..|before|] == before;
      assert k == |before| ==> userGroups[k] == (userName, []) && userGroups[k].1 + [reply] == [reply];
      userGroups := userGroups[k := (userGroups[k].0, userGroups[k].1 + [reply])];
      assert k == |before| ==> userGroups == before + [(userName, [reply])];
    }
    assert replies[..|replies|] == replies;
  }

  /** The senders of `replies`, one per reply, in order. */
  function Names(replies: seq<ReplyRecord>): (ns: seq<string>)
    ensures |ns| == |replies| && forall i :: 0 <= i < |replies| ==> ns[i] == replies[i].userName
  {
    seq(|replies|, i requires 0 <= i < |replies| => replies[i].userName)
  }

  /** The distinct elements of `xs` in order of first occurrence. */
  function FirstSeen(xs: seq<string>): (d: seq<string>)
    ensures forall i, j :: 0 <= i < j < |d| ==> d[i] != d[j]
    ensures forall x :: x in d <==> x in xs
    decreases |xs|
  {
    if xs == [] then []
    else
      var d := FirstSeen(xs[..|xs| - 1]);
      var x := xs[|xs| - 1];
      assert xs == xs[..|xs| - 1] + [x];
      if x in d then d else d + [x]
  }

  /** The replies from sender `n`, in input order. */
  function ByName(replies: seq<ReplyRecord>, n: string): (b: seq<ReplyRecord>)
    ensures forall r :: r in b <==> r in replies && r.userName == n
    decreases |replies|
  {
    if replies == [] then []
    else
      var last := replies[|replies| - 1];
      assert replies == replies[..|replies| - 1] + [last];
      ByName(replies[..|replies| - 1], n) + (if last.userName == n then [last] else [])
  }

  lemma {:induction false} ByNameAbsent(replies: seq<ReplyRecord>, n: string)
    requires n !in Names(replies)
    ensures ByName(replies, n) == []
    decreases |replies|
  {
    if replies != [] {
      var init := replies[..|replies| - 1];
      assert Names(replies)[..|replies| - 1] == Names(init);
      assert Names(replies)[|replies| - 1] == replies[|replies| - 1].userName;
      ByNameAbsent(init, n);
    }
  }

  /** The keys are the distinct senders in first-seen order. */
  lemma {:induction false} GroupedKeys(replies: seq<ReplyRecord>)
    ensures Keys(Grouped(replies)) == FirstSeen(Names(replies))
    decreases |replies|
  {
    if replies != [] {
      var init := replies[..|replies| - 1];
      var r := replies[|replies| - 1];
      GroupedKeys(init);
      assert Names(replies)[..|replies| - 1] == Names(init);
      var g := Grouped(init);
      var i := KeyIndex(g, r.userName);
      assert i < |g| <==> r.userName in Keys(g);
      if i < |g| {
        assert Keys(AddReply(g, r)) == Keys(g);
      } else {
        assert Keys(AddReply(g, r)) == Keys(g) + [r.userName];
      }
    }
  }

  /** No two buckets share a key, and a name is a key exactly when some
      reply comes from it. */
  lemma GroupedKeysDistinct(replies: seq<ReplyRecord>)
    ensures forall i, j :: 0 <= i < j < |Grouped(replies)| ==> Grouped(replies)[i].0 != Grouped(replies)[j].0
    ensures forall n :: n in Keys(Grouped(replies)) <==> n in Names(replies)
  {
    GroupedKeys(replies);
    var g := Grouped(replies);
    assert forall i :: 0 <= i < |g| ==> Keys(g)[i] == g[i].0;
  }

  /** Each bucket holds exactly its sender's replies, in input order. */
  lemma {:induction false} GroupedBuckets(replies: seq<ReplyRecord>)
    ensures forall i :: 0 <= i < |Grouped(replies)| ==>
              Grouped(replies)[i].1 == ByName(replies, Grouped(replies)[i].0)
    decreases |replies|
  {
    if replies != [] {
      var init := replies[..|replies| - 1];
      var r := replies[|replies| - 1];
      GroupedBuckets(init);
      GroupedKeysDistinct(init);
      var g := Grouped(init);
      assert forall a, b :: 0 <= a < b < |g| ==> g[a].0 != g[b].0;
      var k := KeyIndex(g, r.userName);
      var g' := Grouped(replies);
      assert g' == AddReply(g, r);
      forall i | 0 <= i < |g'| ensures g'[i].1 == ByName(replies, g'[i].0) {
        if i < |g| {
          assert g'[i].0 == g[i].0;
          if i == k {
            assert g'[i].1 == g[i].1 + [r];
          } else {
            assert g[i].0 != r.userName by {
              if k < |g| && k < i {
                assert g[k].0 == r.userName && g[k].0 != g[i].0;
              }
            }
            assert g'[i].1 == g[i].1;
          }
        } else {
          assert k == |g| && g'[i] == (r.userName, [r]);
          assert r.userName !in Keys(g);
          assert r.userName !in Names(init);
          ByNameAbsent(init, r.userName);
        }
      }
    }
  }

  function TotalSize(g: Groups): nat
    decreases |g|
  {
    if g == [] then 0 else TotalSize(g[..|g| - 1]) + |g[|g| - 1].1|
  }

  lemma {:induction false} TotalSizeUpdate(g: Groups, i: nat, b: seq<ReplyRecord>)
    requires i < |g|
    ensures TotalSize(g[i := (g[i].0, b)]) == TotalSize(g) - |g[i].1| + |b|
    decreases |g|
  {
    var n := |g| - 1;
    if i < n {
      assert g[i := (g[i].0, b)][..n] == g[..n][i := (g[i].0, b)];
      TotalSizeUpdate(g[..n], i, b);
    } else {
      assert g[i := (g[i].0, b)][..n] == g[..n];
    }
  }

  /** The bucket sizes add up to the number of replies. */
  lemma {:induction false} GroupedSizes(replies: seq<ReplyRecord>)
    ensures TotalSize(Grouped(replies)) == |replies|
    decreases |replies|
  {
    if replies != [] {
      var init := replies[..|replies| - 1];
      var r := replies[|replies| - 1];
      GroupedSizes(init);
      var g := Grouped(init);
      var k := KeyIndex(g, r.userName);
      if k == |g| {
        assert (g + [(r.userName, [r])])[..|g|] == g;
      } else {
        TotalSizeUpdate(g, k, g[k].1 + [r]);
      }
    }
  }

  /** The grouping is a partition: every reply sits in its own sender's
      bucket and in no other. */
  lemma GroupedPartition(replies: seq<ReplyRecord>, x: ReplyRecord)
    requires x in replies
    ensures exists i :: 0 <= i < |Grouped(replies)| && Grouped(replies)[i].0 == x.userName
                        && x in Grouped(replies)[i].1
    ensures forall i :: 0 <= i < |Grouped(replies)| && x in Grouped(replies)[i].1
                        ==> Grouped(replies)[i].0 == x.userName
  {
    GroupedKeysDistinct(replies);
    GroupedBuckets(replies);
    var g := Grouped(replies);
    var j :| 0 <= j < |replies| && replies[j] == x;
    assert Names(replies)[j] == x.userName;
    assert x.userName in Names(replies);
    assert x.userName in Keys(g);
    var i :| 0 <= i < |g| && Keys(g)[i] == x.userName;
    assert g[i].1 == ByName(replies, g[i].0);
    assert x in g[i].1;
  }

  // ---------------------------------------------------------------------
  // The prompt (`_format_user_messages`, `_create_system_prompt`, `_summarize_user`)
  // ---------------------------------------------------------------------

  /** Python's `<=` on strings: lexicographic order on code points. */
  predicate TsLe(a: string, b: string)
    decreases |a|
  {
    if a == [] then true
    else if b == [] then false
    else if a[0] != b[0] then a[0] < b[0]
    else TsLe(a[1..], b[1..])
  }

  lemma {:induction false} TsLeTotal(a: string, b: string)
    ensures TsLe(a, b) || TsLe(b, a)
    decreases |a|
  {
    if a != [] && b != [] && a[0] == b[0] {
      TsLeTotal(a[1..], b[1..]);
    }
  }

  predicate SortedByTimestamp(ms: seq<ReplyRecord>) {
    forall i :: 0 < i < |ms| ==> TsLe(ms[i - 1].timestamp, ms[i].timestamp)
  }

  /** Put `m` before the first message of the sorted `ms` that is not
      earlier than it (so an equal key keeps `m` first: the sort is stable). */
  function InsertByTimestamp(m: ReplyRecord, ms: seq<ReplyRecord>): (r: seq<ReplyRecord>)
    ensures multiset(r) == multiset(ms) + multiset{m}
    ensures |r| == |ms| + 1
    ensures r[0] == m || (ms != [] && r[0] == ms[0])
    ensures SortedByTimestamp(ms) ==> SortedByTimestamp(r)
    decreases |ms|
  {
    if ms == [] || TsLe(m.timestamp, ms[0].timestamp) then [m] + ms
    else
      TsLeTotal(m.timestamp, ms[0].timestamp);
      assert ms == [ms[0]] + ms[1..];
      [ms[0]] + InsertByTimestamp(m, ms[1..])
  }

  /** `sorted(messages, key=lambda x: x["timestamp"])`. */
  function SortByTimestamp(ms: seq<ReplyRecord>): (r: seq<ReplyRecord>)
    ensures multiset(r) == multiset(ms) && |r| == |ms|
    ensures SortedByTimestamp(r)
    decreases |ms|
  {
    if ms == [] then []
    else
      assert ms == [ms[0]] + ms[1..];
      InsertByTimestamp(ms[0], SortByTimestamp(ms[1..]))
  }

  /** One transcript line: `- [<time>] <message>` and a newline, the time
      being the message's ISO timestamp at minute granularity as
      `minuteStamp` renders it. */
  function TranscriptLine(m: ReplyRecord, minuteStamp: string -> string): string {
    "- [" + minuteStamp(m.timestamp) + "] " + m.message + "\n"
  }

  /** Each line is tagged `- [..] ` and holds its message's text whole. */
  lemma TranscriptLineShape(m: ReplyRecord, minuteStamp: string -> string)
    ensures var line := TranscriptLine(m, minuteStamp);
            var t := minuteStamp(m.timestamp);
            && |line| == 6 + |t| + |m.message|
            && line[..3] == "- [" && line[3..3 + |t|] == t && line[3 + |t|..5 + |t|] == "] "
            && line[5 + |t|..|line| - 1] == m.message && line[|line| - 1] == '\n'
  {
  }

  function TranscriptLines(ms: seq<ReplyRecord>, minuteStamp: string -> string): (lines: seq<string>)
    ensures |lines| == |ms| && forall k :: 0 <= k < |ms| ==> lines[k] == TranscriptLine(ms[k], minuteStamp)
  {
    seq(|ms|, k requires 0 <= k < |ms| => TranscriptLine(ms[k], minuteStamp))
  }

  function TranscriptHeader(userName: string): string {
    "Messages from " + userName + ":\n"
  }

  /** The transcript `_format_user_messages` builds. */
  function Transcript(userName: string, messages: seq<ReplyRecord>, minuteStamp: string -> string): string {
    TranscriptHeader(userName) + Concat(TranscriptLines(SortByTimestamp(messages), minuteStamp))
  }

  /** `_format_user_messages`. */
  method FormatUserMessages(userName: string, messages: seq<ReplyRecord>, minuteStamp: string -> string)
    returns (formatted: string)
    ensures formatted == Transcript(userName, messages, minuteStamp)
  {
    var sorted := SortByTimestamp(messages);
    ghost var lines := TranscriptLines(sorted, minuteStamp);
    var body := "";
    for i := 0 to |sorted|
      invariant body == Concat(lines[..i])
    {
      ConcatSnoc(lines, i);
      body := body + TranscriptLine(sorted[i], minuteStamp);
    }
    assert lines[..|sorted|] == lines;
    formatted := TranscriptHeader(userName) + body;
  }

  /** The transcript opens with its header, and the line of the k-th message
      in timestamp order sits whole right after the header and the lines of
      the messages before it. */
  lemma TranscriptLayout(userName: string, messages: seq<ReplyRecord>, minuteStamp: string -> string, k: nat)
    requires k < |messages|
    ensures OccursAt(TranscriptHeader(userName), Transcript(userName, messages, minuteStamp), 0)
    ensures OccursAt(TranscriptLine(SortByTimestamp(messages)[k], minuteStamp),
                     Transcript(userName, messages, minuteStamp),
                     |TranscriptHeader(userName)|
                     + |Concat(TranscriptLines(SortByTimestamp(messages), minuteStamp)[..k])|)
  {
    var sorted := SortByTimestamp(messages);
    var lines := TranscriptLines(sorted, minuteStamp);
    HeadedPartAt(TranscriptHeader(userName), lines, k);
    assert lines[k] == TranscriptLine(sorted[k], minuteStamp);
  }

  const SystemPrompt: string :=
    "You are a project manager assistant. Your task is to analyze user messages and create a concise, "
    + "professional summary for each user.\n\n"
    + "For each user, provide a brief summary covering:\n"
    + "1. What they worked on yesterday (if mentioned)\n"
    + "2. What they're working on today (if mentioned)\n"
    + "3. Any blockers or dependencies (if mentioned)\n"
    + "4. Any other relevant updates\n\n"
    + "Keep the summary concise (2-4 sentences max per user). Be factual and professional. "
    + "If information is not mentioned, don't make assumptions."

  const PromptTail: string := "Provide a concise summary for "

  /** The prompt of `_summarize_user` around a system prompt: the system
      prompt, a blank line, the transcript, a blank line, then the closing
      request naming the user. */
  function PromptFor(system: string, userName: string, transcript: string): (p: string)
    ensures var s := |system|;
            var t := s + 2 + |transcript|;
            && |p| == t + 2 + |PromptTail| + |userName| + 1
            && p[..s] == system
            && p[s..s + 2] == "\n\n"
            && p[s + 2..t] == transcript
            && p[t..t + 2] == "\n\n"
            && p[t + 2..] == PromptTail + userName + ":"
  {
    system + "\n\n" + transcript + "\n\n" + PromptTail + userName + ":"
  }

  function FullPrompt(userName: string, transcript: string): string {
    PromptFor(SystemPrompt, userName, transcript)
  }

  function Prompt(userName: string, messages: seq<ReplyRecord>, minuteStamp: string -> string): string {
    FullPrompt(userName, Transcript(userName, messages, minuteStamp))
  }

  /** What `_summarize_user` returns, or the message of the exception it
      raises. `generate` is the backend: the stripped generated text, or the
      text of the request error, which `_call_ollama` re-raises prefixed. */
  function GeneratedSummary(userName: string, messages: seq<ReplyRecord>,
                            generate: string -> Result<string, string>,
                            minuteStamp: string -> string): (r: Result<string, string>)
    ensures var g := generate(Prompt(userName, messages, minuteStamp));
            && (g.Success? ==> r == g)
            && (g.Failure? ==> r == Failure("Failed to generate summary: " + g.error))
  {
    match generate(Prompt(userName, messages, minuteStamp))
    case Success(text) => Success(text)
    case Failure(detail) => Failure("Failed to generate summary: " + detail)
  }

  /** `_summarize_user`. */
  method SummarizeUser(userName: string, messages: seq<ReplyRecord>,
                       generate: string -> Result<string, string>, minuteStamp: string -> string)
    returns (r: Result<string, string>)
    ensures r == GeneratedSummary(userName, messages, generate, minuteStamp)
  {
    var userMessages := FormatUserMessages(userName, messages, minuteStamp);
    var fullPrompt := FullPrompt(userName, userMessages);
    match generate(fullPrompt) {
      case Success(text) => r := Success(text);
      case Failure(detail) => r := Failure("Failed to generate summary: " + detail);
    }
  }

  // ---------------------------------------------------------------------
  // Assembly (`summarize`)
  // ---------------------------------------------------------------------

  datatype UserSummary = UserSummary(summary: string, messageCount: int, error: Option<string>)

  /** The insertion-ordered `summaries` dictionary. */
  type Summaries = seq<(string, UserSummary)>

  datatype SummaryReport = SummaryReport(
    status: string,
    message: Option<string>,
    summaries: Summaries,
    totalUsers: int,
    totalMessages: int)

  const ErrorSummary: string := "Error generating summary"

  /** One sender's entry from the outcome of its summary: the generated
      text, or the error sentinel with the exception's message; either way
      the bucket's size. */
  function EntryOf(outcome: Result<string, string>, count: int): (e: UserSummary)
    ensures e.messageCount == count
    ensures outcome.Success? ==> e.summary == outcome.value && e.error.None?
    ensures outcome.Failure? ==> e.summary == ErrorSummary && e.error == Some(outcome.error)
  {
    match outcome
    case Success(text) => UserSummary(text, count, None)
    case Failure(msg) => UserSummary(ErrorSummary, count, Some(msg))
  }

  function SummaryEntry(userName: string, messages: seq<ReplyRecord>,
                        generate: string -> Result<string, string>,
                        minuteStamp: string -> string): UserSummary
  {
    EntryOf(GeneratedSummary(userName, messages, generate, minuteStamp), |messages|)
  }

  function Entries(g: Groups, generate: string -> Result<string, string>,
                   minuteStamp: string -> string): (s: Summaries)
    ensures |s| == |g|
    ensures forall i :: 0 <= i < |g| ==>
              s[i] == (g[i].0, SummaryEntry(g[i].0, g[i].1, generate, minuteStamp))
  {
    seq(|g|, i requires 0 <= i < |g| => (g[i].0, SummaryEntry(g[i].0, g[i].1, generate, minuteStamp)))
  }

  /** The report `summarize` returns for a window. */
  function SummaryOf(window: RepliesWindow, generate: string -> Result<string, string>,
                     minuteStamp: string -> string): (r: SummaryReport)
    ensures r.status == "success"
    ensures |window.replies| == 0 ==>
              r == SummaryReport("success", Some("No replies to summarize"), [], 0, 0)
    ensures |window.replies| > 0 ==>
              && r.message.None?
              && r.totalMessages == window.count
              && r.totalUsers == |r.summaries| == |FirstSeen(Names(window.replies))|
              && Keys(r.summaries) == FirstSeen(Names(window.replies))
              && |r.summaries| > 0
    ensures forall i :: 0 <= i < |r.summaries| ==>
              r.summaries[i].1.messageCount == |ByName(window.replies, r.summaries[i].0)|
  {
    if |window.replies| == 0 then
      SummaryReport("success", Some("No replies to summarize"), [], 0, 0)
    else
      var g := Grouped(window.replies);
      GroupedKeys(window.replies);
      GroupedBuckets(window.replies);
      assert Keys(Entries(g, generate, minuteStamp)) == Keys(g);
      assert window.replies[0].userName in Names(window.replies);
      SummaryReport("success", None, Entries(g, generate, minuteStamp), |g|, window.count)
  }

  /** `summarize`. The summaries dictionary is filled by key; since the
      group keys are distinct that is an append. */
  method Summarize(repliesData: RepliesWindow, generate: string -> Result<string, string>,
                   minuteStamp: string -> string)
    returns (report: SummaryReport)
    ensures report == SummaryOf(repliesData, generate, minuteStamp)
  {
    if |repliesData.replies| == 0 {
      return SummaryReport("success", Some("No replies to summarize"), [], 0, 0);
    }
    var userGroups := GroupMessagesByUser(repliesData.replies);
    ghost var entries := Entries(userGroups, generate, minuteStamp);
    var summaries: Summaries := [];
    for i := 0 to |userGroups|
      invariant summaries == entries[..i]
    {
      var (userName, messages) := userGroups[i];
      var r := SummarizeUser(userName, messages, generate, minuteStamp);
      var entry: UserSummary;
      match r {
        case Success(summary) =>
          entry := UserSummary(summary, |messages|, None);
        case Failure(e) =>
          entry := UserSummary(ErrorSummary, |messages|, Some(e));
      }
      assert entries[i] == (userName, entry);
      PrefixSnoc(entries, i);
      summaries := summaries + [(userName, entry)];
    }
    assert entries[..|userGroups|] == entries;
    report := SummaryReport("success", None, summaries, |userGroups|, repliesData.count);
  }

  /** Failure isolation: a sender's entry depends on the backend only
      through that sender's own prompt, so a failure for one sender leaves
      every other entry as it would have been. */
  lemma FailureIsolation(window: RepliesWindow, gen1: string -> Result<string, string>,
                         gen2: string -> Result<string, string>, minuteStamp: string -> string)
    ensures forall j :: 0 <= j < |Grouped(window.replies)|
              && gen1(Prompt(Grouped(window.replies)[j].0, Grouped(window.replies)[j].1, minuteStamp))
                 == gen2(Prompt(Grouped(window.replies)[j].0, Grouped(window.replies)[j].1, minuteStamp))
              ==> && j < |SummaryOf(window, gen1, minuteStamp).summaries|
                  && SummaryOf(window, gen1, minuteStamp).summaries[j]
                     == SummaryOf(window, gen2, minuteStamp).summaries[j]
  {
  }

  /** A sender whose backend call fails keeps its place and its message
      count and gets the sentinel summary and a non-empty error. */
  lemma FailedUserEntry(window: RepliesWindow, generate: string -> Result<string, string>,
                        minuteStamp: string -> string)
    ensures forall j :: 0 <= j < |Grouped(window.replies)|
              && generate(Prompt(Grouped(window.replies)[j].0, Grouped(window.replies)[j].1, minuteStamp)).Failure?
              ==> && j < |SummaryOf(window, generate, minuteStamp).summaries|
                  && SummaryOf(window, generate, minuteStamp).summaries[j].0 == Grouped(window.replies)[j].0
                  && SummaryOf(window, generate, minuteStamp).summaries[j].1.summary == ErrorSummary
                  && SummaryOf(window, generate, minuteStamp).summaries[j].1.messageCount
                     == |Grouped(window.replies)[j].1|
                  && SummaryOf(window, generate, minuteStamp).summaries[j].1.error.Some?
                  && |SummaryOf(window, generate, minuteStamp).summaries[j].1.error.value| > 0
  {
  }

  /** A sender whose backend call succeeds keeps its place and gets the
      backend's text for its own prompt, with no error. */
  lemma GeneratedUserEntry(window: RepliesWindow, generate: string -> Result<string, string>,
                           minuteStamp: string -> string)
    ensures forall j :: 0 <= j < |Grouped(window.replies)|
              && generate(Prompt(Grouped(window.replies)[j].0, Grouped(window.replies)[j].1, minuteStamp)).Success?
              ==> && j < |SummaryOf(window, generate, minuteStamp).summaries|
                  && SummaryOf(window, generate, minuteStamp).summaries[j].0 == Grouped(window.replies)[j].0
                  && SummaryOf(window, generate, minuteStamp).summaries[j].1.summary
                     == generate(Prompt(Grouped(window.replies)[j].0, Grouped(window.replies)[j].1, minuteStamp)).value
                  && SummaryOf(window, generate, minuteStamp).summaries[j].1.error.None?
  {
  }

  /** Every entry of a report counts at least one message: a key is only
      ever opened by a reply from that sender. */
  lemma EntryCountsPositive(window: RepliesWindow, generate: string -> Result<string, string>,
                            minuteStamp: string -> string)
    ensures forall i :: 0 <= i < |SummaryOf(window, generate, minuteStamp).summaries| ==>
              SummaryOf(window, generate, minuteStamp).summaries[i].1.messageCount >= 1
  {
    var r := SummaryOf(window, generate, minuteStamp);
    forall i | 0 <= i < |r.summaries|
      ensures r.summaries[i].1.messageCount >= 1
    {
      var n := r.summaries[i].0;
      assert Keys(r.summaries)[i] == n;
      assert n in Names(window.replies);
      var k :| 0 <= k < |window.replies| && Names(window.replies)[k] == n;
      assert window.replies[k] in ByName(window.replies, n);
    }
  }

  // ---------------------------------------------------------------------
  // The Slack report (`format_for_slack`)
  // ---------------------------------------------------------------------

  const ReportTitlePrefix: string := "\U{1F4CA} *Daily Summary Report* ("

  /** `"─" * 50`. */
  const Rule: string := Repeat('\U{2500}', 50)

  function NoUpdatesReport(timeRangeHours: int): string {
    ReportTitlePrefix + IntToString(timeRangeHours) + "h)\n\n_No updates to report._"
  }

  function TitleLine(timeRangeHours: int): string {
    ReportTitlePrefix + "Last " + IntToString(timeRangeHours) + " hours)\n"
  }

  function StatsLine(report: SummaryReport): string {
    "_Total Users: " + IntToString(report.totalUsers)
    + " | Total Messages: " + IntToString(report.totalMessages) + "_\n"
  }

  function ReportHead(report: SummaryReport, timeRangeHours: int): string {
    TitleLine(timeRangeHours) + StatsLine(report) + (Rule + "\n\n")
  }

  /** One user's block: the name in bold, then the summary, then a blank line. */
  function UserSection(userName: string, entry: UserSummary): (s: string)
    ensures var h := "\U{1F464} *" + userName + "*\n";
            && |s| == |h| + |entry.summary| + 2
            && s[..|h|] == h
            && s[|h|..|s| - 2] == entry.summary
            && s[|s| - 2..] == "\n\n"
  {
    ("\U{1F464} *" + userName + "*\n") + (entry.summary + "\n\n")
  }

  function UserSections(summaries: Summaries): (ss: seq<string>)
    ensures |ss| == |summaries|
    ensures forall k :: 0 <= k < |summaries| ==> ss[k] == UserSection(summaries[k].0, summaries[k].1)
  {
    seq(|summaries|, k requires 0 <= k < |summaries| => UserSection(summaries[k].0, summaries[k].1))
  }

  /** The text `format_for_slack` returns. */
  function SlackReport(report: SummaryReport, timeRangeHours: int): string {
    if |report.summaries| == 0 then NoUpdatesReport(timeRangeHours)
    else ReportHead(report, timeRangeHours) + Concat(UserSections(report.summaries)) + (Rule + "\n")
  }

  /** `format_for_slack`. */
  method FormatForSlack(summaryData: SummaryReport, timeRangeHours: int) returns (slackMessage: string)
    ensures slackMessage == SlackReport(summaryData, timeRangeHours)
  {
    if |summaryData.summaries| == 0 {
      return ReportTitlePrefix + IntToString(timeRangeHours) + "h)\n\n_No updates to report._";
    }
    slackMessage := ReportTitlePrefix + "Last " + IntToString(timeRangeHours) + " hours)\n";
    slackMessage := slackMessage + ("_Total Users: " + IntToString(summaryData.totalUsers)
                                    + " | Total Messages: " + IntToString(summaryData.totalMessages) + "_\n");
    slackMessage := slackMessage + (Rule + "\n\n");
    ghost var head := slackMessage;
    ghost var sections := UserSections(summaryData.summaries);
    for k := 0 to |summaryData.summaries|
      invariant slackMessage == head + Concat(sections[..k])
    {
      var (userName, data) := summaryData.summaries[k];
      ghost var before := slackMessage;
      slackMessage := slackMessage + ("\U{1F464} *" + userName + "*\n");
      slackMessage := slackMessage + (data.summary + "\n\n");
      ConcatSnoc(sections, k);
      AppendAssoc(before, "\U{1F464} *" + userName + "*\n", data.summary + "\n\n");
      AppendAssoc(head, Concat(sections[..k]), sections[k]);
    }
    assert sections[..|sections|] == sections;
    slackMessage := slackMessage + (Rule + "\n");
  }

  /** The short variant is produced exactly when there are no summaries. */
  lemma NoUpdatesIff(report: SummaryReport, timeRangeHours: int)
    ensures SlackReport(report, timeRangeHours) == NoUpdatesReport(timeRangeHours)
            <==> |report.summaries| == 0
  {
    if |report.summaries| > 0 {
      var p := |ReportTitlePrefix|;
      var full := SlackReport(report, timeRangeHours);
      var short := NoUpdatesReport(timeRangeHours);
      assert full[p] == 'L';
      assert short[p] == IntToString(timeRangeHours)[0];
    }
  }

  /** The full report: the title and stats lines with the 50-character
      rule, then each user's section in `summaries` order, each whole and
      right after the sections before it, then the closing rule. */
  lemma ReportLayout(report: SummaryReport, timeRangeHours: int, k: nat)
    requires k < |report.summaries|
    ensures OccursAt(ReportHead(report, timeRangeHours), SlackReport(report, timeRangeHours), 0)
    ensures OccursAt(Rule + "\n", SlackReport(report, timeRangeHours), |SlackReport(report, timeRangeHours)| - 51)
    ensures OccursAt(UserSection(report.summaries[k].0, report.summaries[k].1), SlackReport(report, timeRangeHours),
                     |ReportHead(report, timeRangeHours)| + |Concat(UserSections(report.summaries)[..k])|)
  {
    FramedPartAt(ReportHead(report, timeRangeHours), UserSections(report.summaries), Rule + "\n", k);
  }
}
