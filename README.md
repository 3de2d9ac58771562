# Slack DM-reply collector and daily summariser — a verified model

The system is a small web service around a Slack bot. It does three things.

- A webhook receives Slack events. It answers the URL-verification handshake
  and ignores bot echoes and message edits. Each human direct-message reply
  with non-blank text is stored in a `user_replies` table, together with the
  sender's best-effort display name.
- A listing endpoint returns the stored replies, optionally limited to a
  trailing window of N hours.
- A summary endpoint does four steps:
  - it groups the window's replies by sender;
  - it asks a text-generation backend for one summary per sender, and a
    failure for one sender does not affect the others;
  - it renders a Markdown report;
  - it posts the report to a Slack channel.

  A broadcast endpoint sends one text to a list of users by DM and reports
  who was reached.

The model has one Dafny module per service file, and each takes that file's
form.

- `common.dfy` (`Common`) holds the shared vocabulary: `Option`/`Result`,
  HTTP errors and the stored row. It also models the Python string behaviour
  the services rely on:
  - truthiness of optional strings;
  - `str.strip` over the full `isspace` character set;
  - string joining;
  - decimal rendering of integers.
- `slack_connection.dfy` (`SlackConnection`) models the webhook.
  - The classifier is a function `Classify`. It fixes the precedence of the
    answers and when a store request is made.
  - The endpoint `HandleSlackConnection` is a method. It hands storable
    replies to the store.
- `user_reply_service.dfy` (`UserReplyService`) models ingestion.
  - The table is a class `ReplyStore`, whose fields are the rows and the next
    id.
  - `StoreUserReply` appends exactly the row that `NewRow` specifies, or
    nothing.
  - Name resolution (`ResolveUserName`) is a function.
- `get_user_replies.dfy` (`GetUserReplies`) models the listing. It is pure: a
  window filter followed by a projection.
- `summarizer.dfy` (`Summarizer`) models the summariser. Each loop of the
  source, which builds a dict or a string, is a method proved equal to a
  specification function:
  - grouping: `GroupMessagesByUser` / `Grouped`;
  - the transcript: `FormatUserMessages` / `Transcript`;
  - the per-sender summaries: `Summarize` / `SummaryOf`;
  - the report: `FormatForSlack` / `SlackReport`.

  The properties the source promises are lemmas about those functions.
- `send_message.dfy` (`SendMessage`) models the DM fan-out. `SendDirectMessage`
  is a loop proved equal to `DirectMessageResult`.
- `route.dfy` (`Route`) models the two composed endpoints as functions:
  `SendMessageEndpoint` and `GetSummary`.

Everything outside the process becomes a parameter:

| Collaborator | Parameter |
|---|---|
| Slack `users.info` answer, including an exception it raises | a `Lookup` value |
| `float(ts)` | `parseTs` |
| the clock | `now`, in whole seconds |
| database commit | `commitError` |
| `isoformat` and `strftime` rendering | `iso` and `minuteStamp` |
| the text-generation backend | `generate`, from prompt to stripped text or error message |
| each DM attempt | `attempt(i)` |
| the channel post | `post` |

Each parameter stands for one answer the real collaborator can give, error cases included, as far as the "## Left out" lines below allow.

## Model

| member | source | states |
|---|---|---|
| Common.StripSlice | app/services/slack_connection.py:30 | `strip` returns a contiguous slice of its input with only whitespace cut off either side |
| Common.StripEnds | app/services/slack_connection.py:30 | the stripped text neither starts nor ends with whitespace |
| Common.StripEmptyIff | app/services/slack_connection.py:30 | the stripped text is empty exactly when the input is all whitespace |
| Common.HeadedPartAt | app/services/summarizer.py:40-45 | in a header followed by the concatenation of parts, the header opens the text and part k sits whole right after the header and the parts before it |
| Common.FramedPartAt | app/services/summarizer.py:134-143 | the same with a trailer appended, which closes the text |
| Common.NatToStringValue | app/services/summarizer.py:132-135 | the decimal rendering interpolated into the report denotes the number and has no leading zero |
| Common.Repeat | app/services/summarizer.py:136 | `c * n` has length `n` and every character is `c` |
| SlackConnection.Classify | app/services/slack_connection.py:13-47 | URL verification echoes the challenge first. A message event with a truthy `bot_id` or `subtype` is ignored. A non-DM message or another event type is answered `ok`. Other payload types are ignored. A DM without `user`, `ts` or `channel` is a 500, and an undecodable body is a 500 with the decoder's message. A store request is made iff the event is a complete human DM with non-blank text; the request then carries the event's fields and the stripped text, and the answer is `ok` |
| SlackConnection.ChallengeEchoedVerbatim | app/services/slack_connection.py:17-18 | the handshake returns the challenge token unchanged, whatever else the payload holds |
| SlackConnection.WhitespaceTextNotStored | app/services/slack_connection.py:30-34 | text made only of whitespace never leads to a store request |
| SlackConnection.StoredTextIsStripped | app/services/slack_connection.py:30-40 | the stored message is non-empty and has no leading or trailing whitespace |
| SlackConnection.HandleSlackConnection | app/services/slack_connection.py:13-47 | the answer is the classifier's answer whatever ingestion does. The store changes only when a store request is made, and then `rows` grows by exactly the row `NewRow` specifies and `nextId` advances by one exactly when that row exists |
| UserReplyService.ResolveUserName | app/services/user_reply_service.py:16-34 | a Slack API error or `ok=false` gives `"Unknown"`. Any other exception from the lookup escapes, with its message. Otherwise the result is the first truthy name among display name and real name, then `name`, then `"Unknown"`. A successful lookup without `user` or `profile` fails, and only then |
| UserReplyService.ResolvedNameOrigin | app/services/user_reply_service.py:18-26 | a resolved name is `"Unknown"` or one of the names the lookup returned |
| UserReplyService.MessageTimestamp | app/services/user_reply_service.py:36-39 | the stored instant is the parsed `ts`, or the current time when parsing fails |
| UserReplyService.NewRow | app/services/user_reply_service.py:16-48 | a row is committed iff the name resolved (no exception other than a Slack API error escaped the lookup) and the commit succeeded. It carries the next id, the sender's id, the message, the resolved name and the message instant |
| UserReplyService.LookupFailureStillStores | app/services/user_reply_service.py:25-34 | a failed or refused lookup still stores the reply, under `"Unknown"` |
| UserReplyService.ReplyStore.constructor | app/models/user_reply.py:6-13 | the table starts empty, with ids starting at 1 |
| UserReplyService.ReplyStore.StoreUserReply | app/services/user_reply_service.py:8-57 | it appends exactly `NewRow`'s row, or nothing, and never fails. It keeps ids increasing and below the next id, so ids stay unique |
| GetUserReplies.Filter | app/services/get_user_replies.py:19-24 | a row is kept iff it is stored and inside the window; with no window every row is kept |
| GetUserReplies.FilterAppend | app/services/get_user_replies.py:21-24 | filtering distributes over concatenation, so the result keeps the stored order |
| GetUserReplies.Project | app/services/get_user_replies.py:27-33 | every column is copied, and the timestamp is the ISO rendering followed by `Z` |
| GetUserReplies.ProjectAll | app/services/get_user_replies.py:26-35 | one record per kept row, in order |
| GetUserReplies.GetUserReplies | app/services/get_user_replies.py:10-44 | the call fails iff the query fails, and then with 500 `Internal server error`. `count` is the number of records. The records are the projection of the filtered rows, and with no window every row is returned |
| GetUserReplies.WindowBoundaryInclusive | app/services/get_user_replies.py:20-21 | a row stamped exactly `last_hours` hours ago is inside the window |
| GetUserReplies.TwoHourWindowExample | app/services/get_user_replies.py:19-24 | rows at now-3h, now-1h and now with a 2-hour window give the last two, in order |
| Summarizer.KeyIndex | app/services/summarizer.py:23 | the dict lookup of `user_name in user_groups`: the first position holding the key, or past the end when the key is absent |
| Summarizer.GroupMessagesByUser | app/services/summarizer.py:19-26 | the loop builds exactly the dictionary `Grouped` specifies |
| Summarizer.FirstSeen | app/services/summarizer.py:23-24 | the distinct elements, each once, with the same members as the input |
| Summarizer.ByName | app/services/summarizer.py:25 | one sender's replies: exactly the input's replies from that sender |
| Summarizer.GroupedKeys | app/services/summarizer.py:21-25 | the keys are the distinct sender names in first-seen order |
| Summarizer.GroupedKeysDistinct | app/services/summarizer.py:23-24 | no key appears twice, and a name is a key iff some reply comes from it |
| Summarizer.GroupedBuckets | app/services/summarizer.py:21-25 | each bucket is exactly its sender's replies, in input order |
| Summarizer.GroupedSizes | app/services/summarizer.py:19-26 | the bucket sizes add up to the number of replies |
| Summarizer.GroupedPartition | app/services/summarizer.py:19-26 | every reply sits in its own sender's bucket and in no other |
| Summarizer.TsLeTotal | app/services/summarizer.py:41 | string comparison on the timestamp key is total, so the sort is defined |
| Summarizer.InsertByTimestamp | app/services/summarizer.py:41 | inserting into a sorted list keeps it sorted and adds exactly that element |
| Summarizer.SortByTimestamp | app/services/summarizer.py:41 | the sorted transcript order is a permutation of the bucket, ascending by timestamp |
| Summarizer.TranscriptLineShape | app/services/summarizer.py:43-45 | each line is `- [`, the minute-granularity time, `] `, the message whole, then a newline |
| Summarizer.TranscriptLines | app/services/summarizer.py:41-45 | one line per message, in sorted order |
| Summarizer.FormatUserMessages | app/services/summarizer.py:39-46 | the accumulating loop builds exactly the header followed by the lines of the sorted messages |
| Summarizer.TranscriptLayout | app/services/summarizer.py:40-45 | the transcript opens with `Messages from <name>:` and holds the k-th sorted message's line whole, right after the lines before it |
| Summarizer.PromptFor | app/services/summarizer.py:76-80 | the prompt is the system prompt, a blank line, the transcript, a blank line, then `Provide a concise summary for <name>:` |
| Summarizer.GeneratedSummary | app/services/summarizer.py:66-83 | the summary is the backend's text, or the error message with the prefix `Failed to generate summary: ` |
| Summarizer.SummarizeUser | app/services/summarizer.py:72-83 | it builds the prompt from the transcript and returns what `GeneratedSummary` specifies |
| Summarizer.EntryOf | app/services/summarizer.py:104-116 | a sender's entry is the summary with the bucket size, or `Error generating summary` with the bucket size and the error message |
| Summarizer.Entries | app/services/summarizer.py:101-116 | one entry per group, in group order, each from that group's own summary |
| Summarizer.SummaryOf | app/services/summarizer.py:85-123 | the status is `success`. No replies give the fixed empty report and call no backend. Otherwise `total_messages` is the input's `count`, and `total_users` is the number of distinct senders. The keys are the senders in first-seen order, and each `message_count` is the size of that sender's replies |
| Summarizer.Summarize | app/services/summarizer.py:85-127 | the loop builds exactly `SummaryOf`'s report; a per-sender failure never escapes |
| Summarizer.FailureIsolation | app/services/summarizer.py:101-116 | a sender's entry depends on the backend only through that sender's prompt, so one failure leaves every other entry unchanged |
| Summarizer.FailedUserEntry | app/services/summarizer.py:110-116 | a failing sender keeps its place and its count, and gets the sentinel summary and a non-empty error |
| Summarizer.GeneratedUserEntry | app/services/summarizer.py:104-109 | a sender whose backend call succeeds keeps its place and gets the backend's text for its own prompt, with no error |
| Summarizer.EntryCountsPositive | app/services/summarizer.py:97-116 | every entry's `message_count` is at least 1 |
| Summarizer.UserSection | app/services/summarizer.py:138-140 | a user's block is the bold name line, the summary, then a blank line |
| Summarizer.UserSections | app/services/summarizer.py:138-140 | one block per summary entry, in `summaries` order |
| Summarizer.FormatForSlack | app/services/summarizer.py:129-148 | the accumulating code builds exactly `SlackReport` |
| Summarizer.NoUpdatesIff | app/services/summarizer.py:131-134 | the short "No updates" text is produced iff there are no summaries |
| Summarizer.ReportLayout | app/services/summarizer.py:134-143 | the full report opens with the title, the stats line and the rule, holds each user's block whole in `summaries` order, and closes with the 50-character rule |
| SendMessage.TargetIds | app/services/send_message.py:8-9 | a single id is the list holding it |
| SendMessage.FirstOtherError | app/services/send_message.py:13-25 | finds the first attempt that raises something other than a Slack API error |
| SendMessage.SendDirectMessage | app/services/send_message.py:7-33 | the loop returns exactly `DirectMessageResult`: the partition, or the first escaping exception |
| SendMessage.PartitionIsExact | app/services/send_message.py:13-25 | every target, duplicates included, lands in exactly one of `successful` and `failed` |
| SendMessage.DeliveredAttempts | app/services/send_message.py:20 | the positions of the delivered attempts, ascending |
| SendMessage.FailedAttempts | app/services/send_message.py:22-25 | the positions of the attempts that raised a Slack API error, ascending |
| SendMessage.SuccessesFollowInput | app/services/send_message.py:13-20 | the k-th success is the k-th delivered target, with its response data |
| SendMessage.FailuresFollowInput | app/services/send_message.py:22-25 | the k-th failure is the k-th rejected target, with its error code |
| SendMessage.OtherErrorAborts | app/services/send_message.py:13-25 | any other exception aborts the whole call with the first such error |
| SendMessage.AllFailedIff | app/services/send_message.py:22-25 | `failed` is as long as the target list iff every attempt raised a Slack API error |
| Route.SendMessageEndpoint | app/routes/route.py:24-38 | an empty list is a 400 and nothing is sent. An escaping exception is a 500. Every target rejected is a 500 `Failed to send message to all users`. The call succeeds iff the list is non-empty, nothing escaped and some target was reached, and then the partition is returned unchanged |
| Route.OneOfThreeFails | app/routes/route.py:29-38 | with one rejection among three sends, the call succeeds with the two deliveries and the one failure, in order |
| Route.ExceptionText | app/routes/route.py:64-68 | `str(HTTPException)` is the status code, `: `, then the detail |
| Route.GetSummary | app/routes/route.py:41-68 | `last_hours` defaults to 24 and must be at least 1. The same value selects the window and titles the report. The summary is that of exactly that window, and the Slack text is its rendering. The posted `ts` is returned with `slack_posted` true and status `success`. A failing query or post is one 500 prefixed `Failed to generate summary: ` |
| Route.SummaryCoversWindow | app/routes/route.py:49-62 | a successful answer counts every reply of the window and has one entry per distinct sender. Its Slack text is the "No updates" variant exactly when the window is empty |

## Left out

- The text-generation backend (`_call_ollama`, app/services/summarizer.py:48-70) is the `generate` parameter. The HTTP request, JSON decoding and timeouts are not modelled; the `.strip()` of the response is folded into `generate`, which returns the stripped text. Exceptions other than request errors are not modelled either.
- app/services/slack_client.py is the `post` parameter. That file is the `SlackClient.post_message` wrapper around an HTTP POST to `chat.postMessage`. The model leaves out its environment checks (:13-16) and the request itself (:33-36). Its two errors are the messages `post` may return: `Slack API error: …` for a non-`ok` answer (:40-43) and `Failed to post to Slack: …` for a request error (:48-50). The `slack_sdk` `WebClient` and its unverified SSL context (app/services/slack_connection.py:8-10) are not modelled either. Its calls are parameters: `users_info` is the `Lookup` value and each DM is `attempt(i)`.
- The timestamps are approximations:
  - instants are whole seconds;
  - `float(ts)` followed by `datetime.utcfromtimestamp` is the `parseTs` parameter. Its `None` stands for the `ValueError` or `TypeError` that falls back to the current time. The `OverflowError` or `OSError` that `utcfromtimestamp` raises for an out-of-range instant (app/services/user_reply_service.py:37) is not modelled. That error escapes the fallback handler (:38), reaches the outer handler (:53-55) and stores nothing;
  - `datetime.isoformat` and `strftime` are the `iso` and `minuteStamp` parameters.
- SortByTimestamp: it orders by the rendered ISO strings, as the source does. The model does not relate that order to the instants: `isoformat` omits fractional seconds when they are zero, so the string order and the instant order can disagree within one second. The sort's stability is not stated either.
- JSON shape: only string-valued or absent fields are modelled. Non-string JSON values raise `AttributeError` or compare differently, and so do a non-object `event` and a `text` that is `null`. A body that is valid JSON but not an object makes `payload.get` raise `AttributeError`, which the endpoint turns into a 500 (app/services/slack_connection.py:17,45-47). None of these are modelled.
- The database is only the `rows` and `nextId` fields. SQLAlchemy sessions, rollback mechanics and `db.close()` are left out. The commit outcome is the `commitError` parameter, and the next id is a counter. The model's counter advances only when a row is committed. That contiguity of ids is not a claim about the source: a sequence-backed id can be used up by a failed commit. The proved promise, that ids increase and so are unique, does not depend on it.
- Request validation: `last_hours` below 1 on the listing endpoint (app/services/get_user_replies.py:12-14) is not modelled. On the summary endpoint it is a 422 with pydantic's message; the JSON structure of FastAPI's validation error is not modelled.
- Route.SendMessageEndpoint: the `X-Details` header of the all-failed response is not modelled. An escaping exception is FastAPI's generic 500 `Internal Server Error`.
- Logging, router and `Depends` wiring, async/await, `init_db.py`, `config.py` and the Pydantic schemas are plumbing and are left out.
