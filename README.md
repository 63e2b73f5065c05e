# OpenGPTs client, login prompt and Slack bots — a Dafny model

This project models the core of an OpenGPTs tool set: the Python REST client for an OpenGPTs server, the login prompt of its Streamlit Google OAuth helper, and the two versions of its sample Slack bot.

- **Client** (`client.dfy`, module `Client`): the client's user id and request headers, and the parser of a streamed run. The parser is a class `StreamParser` whose `eventType` field is the state that `run_stream` carries from line to line. Its `Feed` method handles one response line. `RunStream` drives it over the whole response body. `RunAndGetMessages` keeps the last message list.
  - Each method is proved against a pure reference definition: `Step` for one line, `Run` for a stream.
  - The lemmas about `Run` state what a stream yields: per-frame behaviour, error frames, neutral lines, the number of lists, and a complete example.
- **Schema** (`message.dfy`, module `Schema`): the message records and `Message.to_request_params`. It includes `model_dump` of the additional keyword arguments and its inverse, which reads a dump back.
- **Login prompt** (`login.dfy`, module `LoginMessage`):
  - the three HTML templates;
  - a model of `str.format`, covering `{{`, `}}`, named fields, unknown fields, unpaired braces and a `{` inside a field name;
  - `get_login_message`, shown to substitute the url exactly once, between brace-free text.
- **Slack bot** (`slackbot.dfy`, module `SlackBot`):
  - `remove_mention`, the substitution `re.sub(r"^<.*>", "", message)`, has a reference predicate for what the regular expression matches;
  - the OpenGPTs user id and reply thread taken from a Slack event;
  - the choice between creating a thread and reusing the first listed one;
  - the reply text.
- **Earlier Slack bot** (`slackbotbackup.dfy`, module `SlackBotBackup`):
  - its own loop over the stream, which keeps the last payload containing `"finish_reason":"stop"`, as a `while` loop proved against `Scan`;
  - its reply text;
  - the two different user ids it sends.
- **Helpers**: `pytext.dfy` (module `PyText`) models the Python string operations the core uses: `str.isspace`, `strip`, `split(":", 1)` unpacked into two names, the substring operator `in`, and `x or y` on strings. `json.dfy` holds a JSON value type. `wrappers.dfy` holds `Option` and `Result`.

The HTTP response body is given as its sequence of lines. JSON decoding (`orjson.loads`, `json.loads`) and pydantic validation (`Message(**m)`) are abstract functions passed in: a `Client.Codec` holds them, and the backup bot takes a `decode` function.

Python exceptions are modelled as `Err` results with one constructor per cause. Examples: `Client.StreamError`, `SlackBotBackup.ScanError`, `SlackBotBackup.ReplyError`.

## Model

| member | source | states |
|---|---|---|
| PyText.Strip | libs/opengpt-client/opengpts_client/client.py:350 | `str.strip()`: the result is a slice of the text with only whitespace before and after it; it is empty exactly when the text is all whitespace, and otherwise starts and ends with a non-whitespace character |
| PyText.SplitOnce | libs/opengpt-client/opengpts_client/client.py:351 | `split(":", 1)` unpacked into two names: it fails exactly when the separator is absent; otherwise the two parts rejoin with the separator to form the input, and the first part holds no separator |
| PyText.SplitOnceOf | libs/opengpt-client/opengpts_client/client.py:351 | splitting `head + sep + tail` where `head` holds no `sep` gives back `head` and `tail` |
| PyText.Contains | example/sample-slack-bot/app/main_bk.py:120 | Python's substring test `sub in s` |
| PyText.ContainsIff | example/sample-slack-bot/app/main_bk.py:120 | the substring test `in` holds exactly when the text occurs at some position |
| PyText.IsSpace | libs/opengpt-client/opengpts_client/client.py:350 | `str.isspace()` on one character: the ASCII and Unicode whitespace characters Python recognises |
| PyText.IsBlank | libs/opengpt-client/opengpts_client/client.py:350 | the negation of the truth value of `s.strip()`: the line is empty or all whitespace |
| PyText.OrElse | example/sample-slack-bot/app/main.py:65 | `x or y` on an optional string: `y` when `x` is missing or empty, otherwise `x` |
| Schema.NewMessage | libs/opengpt-client/opengpts_client/schema/message.py:36-50 | a `Message` built from type and content has every optional field at its `None` default |
| Schema.DumpAdditionalKwargs | libs/opengpt-client/opengpts_client/schema/message.py:21-26 | `model_dump` of the additional kwargs has exactly the keys `name`, `function_call` and `tool_calls` |
| Schema.ToolCallsRoundTrip | libs/opengpt-client/opengpts_client/schema/message.py:15-18 | the dumped list of tool calls loads back to the same list |
| Schema.KwargsRoundTrip | libs/opengpt-client/opengpts_client/schema/message.py:64 | loading `model_dump()` of the additional kwargs gives back the same record |
| Schema.DumpInjective | libs/opengpt-client/opengpts_client/schema/message.py:64 | two additional-kwargs records dump equal exactly when they are equal |
| Schema.ExampleFlag | libs/opengpt-client/opengpts_client/schema/message.py:66 | `example or False` is true exactly when `example` is `True` |
| Schema.KwargsParam | libs/opengpt-client/opengpts_client/schema/message.py:61-65 | the `additional_kwargs` parameter is `{}` exactly when the message has none; otherwise it is exactly their `model_dump`, which loads back to them |
| Schema.ToRequestParams | libs/opengpt-client/opengpts_client/schema/message.py:52-67 | the request parameters have exactly the keys type, content, additional_kwargs and example; type and content are copied; additional_kwargs is `{}` or exactly the dump of the message's kwargs; example is `example == True` |
| Schema.RequestParamsAgree | libs/opengpt-client/opengpts_client/schema/message.py:58-67 | two messages give equal parameters exactly when their type, content, additional kwargs and example flag agree |
| Schema.IdAndNameNotSent | libs/opengpt-client/opengpts_client/schema/message.py:58-67 | changing a message's `id` or `name` does not change its request parameters |
| Client.OpenGptsClient.Headers | libs/opengpt-client/opengpts_client/client.py:52-55 | the headers are exactly Content-Type and Cookie; Content-Type is `application/json`; the Cookie reads back to the client's user id |
| Client.CookieRoundTrip | libs/opengpt-client/opengpts_client/client.py:54 | the user id read out of `opengpts_user_id=<id>` is `<id>` |
| Client.NewClient | libs/opengpt-client/opengpts_client/client.py:42-43 | a given non-empty user id is kept; a missing or empty one is replaced by the fresh UUID; the id is never empty |
| Client.ValidateAll | libs/opengpt-client/opengpts_client/client.py:360 | `[Message(**m) for m in items]` succeeds exactly when every item is an object that validates, and then gives one message per item, in order |
| Client.ToMessages | libs/opengpt-client/opengpts_client/client.py:359-360 | `[Message(**m) for m in stream_messages]` over the decoded payload: iterate it, then validate each element |
| Client.Items | libs/opengpt-client/opengpts_client/client.py:359-360 | iterating over a decoded payload: a list gives its elements, `{}` and `""` give nothing, anything else fails |
| Client.DataOutcome | libs/opengpt-client/opengpts_client/client.py:356-363 | a `data` line is ignored unless the event type is `metadata`, `data` or `error`; only `data` yields, and a `data` line under `data` yields or fails; `error` always fails, and an undecodable payload fails with `InvalidJson` under those three |
| Client.NextEventType | libs/opengpt-client/opengpts_client/client.py:353-354 | only an `event` line changes the event type, to its stripped value; every other line keeps it |
| Client.Step | libs/opengpt-client/opengpts_client/client.py:348-363 | the event type after a line changes only on an `event` line, to its stripped value |
| Client.StreamParser.Feed | libs/opengpt-client/opengpts_client/client.py:350-363 | the new event type and the outcome of a line are those of the reference definition `Step` from the old event type |
| Client.Run | libs/opengpt-client/opengpts_client/client.py:348-363 | the reference definition of the drained loop: the lists yielded in order, ending at the first failing line |
| Client.RunAdvance | libs/opengpt-client/opengpts_client/client.py:349-363 | one more line of a run: a skipped line keeps the lists so far, a yielding line appends its list, a failing line ends the run with that error |
| Client.RunStream | libs/opengpt-client/opengpts_client/client.py:348-363 | the lists yielded and the error that ends the stream are those of the reference run `Run(Parse(codec), None, lines)` |
| Client.RunAndGetMessages | libs/opengpt-client/opengpts_client/client.py:381-387 | an error in the stream is passed on; a stream that yields nothing fails with `NoMessages` (the `IndexError` of `[-1]`); otherwise the result is the last list yielded |
| Client.FieldAndValue | libs/opengpt-client/opengpts_client/client.py:351-353 | `msg.split(":", 1)` unpacked into field and value, each then stripped; `None` when the line has no colon |
| Client.FieldAndValueOf | libs/opengpt-client/opengpts_client/client.py:351-353 | a line `field:value` with no colon in `field` splits into the stripped field and the stripped value |
| Client.LineWithoutColon | libs/opengpt-client/opengpts_client/client.py:350-351 | a non-blank line with no colon fails with `MalformedLine` (the `ValueError` of the two-name unpack) and keeps the event type |
| Client.BlankLine | libs/opengpt-client/opengpts_client/client.py:350 | a blank line leaves the state alone and yields nothing |
| Client.IgnoredLines | libs/opengpt-client/opengpts_client/client.py:350-363 | a line whose field is neither `event` nor `data`, and a `data` line under any other event type, leave the state alone and yield nothing |
| Client.EventLine | libs/opengpt-client/opengpts_client/client.py:353-354 | an `event` line sets the event type to its stripped value and yields nothing |
| Client.MetadataFrame | libs/opengpt-client/opengpts_client/client.py:356-357 | under `metadata` a `data` line is skipped exactly when its payload decodes to an object holding `run_id`; otherwise it fails with `InvalidJson` or `MissingRunId` |
| Client.DataFrame | libs/opengpt-client/opengpts_client/client.py:358-360 | under `data` a `data` line yields exactly when its payload decodes and every item validates, and then yields those messages; otherwise it fails with `InvalidJson` or `InvalidMessages` |
| Client.ArrayPayload | libs/opengpt-client/opengpts_client/client.py:359-360 | an array payload converts exactly when every element is a valid message object, one message per element |
| Client.ErrorFrame | libs/opengpt-client/opengpts_client/client.py:361-363 | under `error` a `data` line always fails: with the decoded error description (`HTTPError`), or `InvalidJson` |
| Client.StateAfterParse | libs/opengpt-client/opengpts_client/client.py:353-354 | the event type the parser is left with after a sequence of lines is the one computed from its `event` lines alone |
| Client.EventTypeAppend | libs/opengpt-client/opengpts_client/client.py:349-354 | the event type after `a + b` is the one `b` leaves when started from the type `a` leaves |
| Client.LastEventLine | libs/opengpt-client/opengpts_client/client.py:353-354 | after a stream, the event type is the stripped value of its last `event` line |
| Client.TypePersists | libs/opengpt-client/opengpts_client/client.py:353-354 | without `event` lines the event type never changes |
| Client.RunAppend | libs/opengpt-client/opengpts_client/client.py:349-363 | a run over `a + b` is the run over `a` followed by the run over `b` from the event type `a` leaves, unless the run over `a` failed |
| Client.NeutralLineInserted | libs/opengpt-client/opengpts_client/client.py:350-363 | inserting a blank line, or a line whose field is neither `event` nor `data`, anywhere in a stream does not change what it yields |
| Client.ErrorFrameEndsRun | libs/opengpt-client/opengpts_client/client.py:361-363 | a `data` line under `error` ends the run with a failure; everything yielded before it is kept; nothing after it is read |
| Client.YieldingLines | libs/opengpt-client/opengpts_client/client.py:358-360 | only a `data` line under event type `data` can yield, and such a line is never skipped |
| Client.RunCount | libs/opengpt-client/opengpts_client/client.py:349-363 | for any line processor, a run yields no more lists than it has counted lines, and exactly that many when it ends without error |
| Client.CountParse | libs/opengpt-client/opengpts_client/client.py:358 | the lines counted for `run_stream` are the `data` lines met under event type `data` |
| Client.BatchCount | libs/opengpt-client/opengpts_client/client.py:358-360 | the number of lists yielded is at most the number of `data` frames under event type `data`, and equal to it when the stream ends normally |
| Client.SingleMessagePayload | libs/opengpt-client/opengpts_client/client.py:360 | an array holding one valid message object converts to that one message |
| Client.MetadataThenData | libs/opengpt-client/opengpts_client/client.py:348-363 | `event: metadata`, a `run_id` payload, `event: data`, and a one-message array yield exactly that one list, with no error |
| LoginMessage.Format | libs/streamlit-google-oauth/streamlit_google_oauth/message.py:54-56 | the model of `str.format` with one keyword field: `{{` and `}}` are literal braces, `{name}` is replaced when `name` is the field, any other name is a `KeyError`; an unpaired brace, or a `{` inside a field name, is a `ValueError` |
| LoginMessage.OpenInNameRejected | libs/streamlit-google-oauth/streamlit_google_oauth/message.py:54-56 | a field name holding `{` is a `ValueError` even when it equals the keyword given |
| LoginMessage.FormatLiteral | libs/streamlit-google-oauth/streamlit_google_oauth/message.py:54-56 | `str.format` copies text without braces unchanged |
| LoginMessage.FormatField | libs/streamlit-google-oauth/streamlit_google_oauth/message.py:54-56 | `str.format` replaces `{AUTHORIZATION_URL}` by the url, whatever the url holds |
| LoginMessage.FormatSingleField | libs/streamlit-google-oauth/streamlit_google_oauth/message.py:54-56 | a template of brace-free text around one field formats to that text around the value |
| LoginMessage.BeforesPlain | libs/streamlit-google-oauth/streamlit_google_oauth/message.py:18-30 | the text before the field in each of the three templates holds no braces |
| LoginMessage.ParseLoginType | libs/streamlit-google-oauth/streamlit_google_oauth/message.py:47-52 | `"initial"` and `"retry"` select their templates; every other login type selects the expired one |
| LoginMessage.Template | libs/streamlit-google-oauth/streamlit_google_oauth/message.py:18-30 | the template chosen for each login type is `LOGIN_HTML`, `RETRY_HTML` or `TOKEN_EXPIRED_HTML` |
| LoginMessage.TemplateFormats | libs/streamlit-google-oauth/streamlit_google_oauth/message.py:54-56 | every template formats without error, putting the url between its two halves |
| LoginMessage.GetLoginMessage | libs/streamlit-google-oauth/streamlit_google_oauth/message.py:33-56 | the message is the style block, then the chosen template's text before the field, the url, and the text after it, for each of the three login types |
| LoginMessage.UrlInMessage | libs/streamlit-google-oauth/streamlit_google_oauth/message.py:54-56 | the message is the style block and the template's first half, then the url verbatim |
| LoginMessage.BeforeEndsWithLink | libs/streamlit-google-oauth/streamlit_google_oauth/message.py:18-30 | each template's first half ends with `<a target='_self' href='`, so the url is the link target |
| LoginMessage.MessageInjective | libs/streamlit-google-oauth/streamlit_google_oauth/message.py:54-56 | for a fixed login type, different urls give different messages |
| SlackBot.RemoveMention | example/sample-slack-bot/app/main.py:39-48 | the result is a suffix of the input; text that does not start with `<` is unchanged |
| SlackBot.RemoveMentionUnchanged | example/sample-slack-bot/app/main.py:48 | the text is unchanged exactly when no prefix starts with `<`, ends with `>` and crosses no newline |
| SlackBot.RemoveMentionLongest | example/sample-slack-bot/app/main.py:48 | when such a prefix exists, the longest one is removed and nothing else |
| SlackBot.RemainderFirstLine | example/sample-slack-bot/app/main.py:48 | after a removal, the first line of what remains holds no `>` |
| SlackBot.RestOfLine | example/sample-slack-bot/app/main.py:48 | cutting a text inside its first line leaves the rest of that line as the new first line |
| SlackBot.RemoveMentionIdempotent | example/sample-slack-bot/app/main.py:48 | removing the mention twice is the same as removing it once (main_bk.py:48 is the same function) |
| SlackBot.ThreadKey | example/sample-slack-bot/app/main.py:65 | `thread_ts or event_ts`: the thread timestamp when present and non-empty, otherwise the event's own; main.py:88 posts the reply into this same thread |
| SlackBot.OpengptsUserId | example/sample-slack-bot/app/main.py:65 | the user id is the channel, a `-`, then the thread key |
| SlackBot.ThreadSharesId | example/sample-slack-bot/app/main.py:65 | a mention inside a thread gets the same user id as the mention that started it, and is answered in the same thread |
| SlackBot.UserIdDeterminesThread | example/sample-slack-bot/app/main.py:65 | with channel ids free of `-`, equal user ids mean the same channel and the same thread key |
| SlackBot.HyphenatedChannelsCollide | example/sample-slack-bot/app/main.py:65 | channel `a-b` with thread `c` and channel `a` with thread `b-c` share the user id `a-b-c` |
| SlackBot.ClientKeepsUserId | example/sample-slack-bot/app/main.py:67-70 | the client built by the handler uses the derived id, not a random one |
| SlackBot.Question | example/sample-slack-bot/app/main.py:59-83 | the one message sent to the run is a `human` message with the mention-stripped text, sent without additional kwargs and with `example` false |
| SlackBot.ChooseThread | example/sample-slack-bot/app/main.py:72-78 | a new thread is created exactly when the event has no `thread_ts`, and it is named after the mention-stripped text |
| SlackBot.FirstThread | example/sample-slack-bot/app/main.py:78 | `get_thread_list()[0]` succeeds exactly when the listing is non-empty, and gives its first thread |
| SlackBot.EmptyThreadTsDisagrees | example/sample-slack-bot/app/main.py:65-78 | an empty `thread_ts` reuses a listed thread, while the user id falls back to the event's timestamp |
| SlackBot.ReplyContent | example/sample-slack-bot/app/main.py:85 | `messages[-1].content` succeeds exactly when the list is non-empty, and gives the last message's content |
| SlackBot.ReplyText | example/sample-slack-bot/app/main.py:95 | the reply is the user's mention `<@user>`, a newline and a space, then the response text |
| SlackBot.ReplyMentionRemoved | example/sample-slack-bot/app/main.py:95 | `remove_mention` strips exactly the leading user mention of a reply, for a user id without newlines |
| SlackBotBackup.LastStopPayload | example/sample-slack-bot/app/main_bk.py:111-121 | the loop's kept payload, or the error it raises, is that of the reference definition `Scan` over the lines |
| SlackBotBackup.ScanAdvance | example/sample-slack-bot/app/main_bk.py:115-121 | one more line: a kept line leaves the payload, a qualifying line replaces it, an aborting line decides the whole result |
| SlackBotBackup.ErrorPersists | example/sample-slack-bot/app/main_bk.py:117-121 | once the loop has raised, later lines change nothing |
| SlackBotBackup.KeptLines | example/sample-slack-bot/app/main_bk.py:115-120 | lines that leave the payload alone (blank lines, or well-formed lines that do not qualify), appended at the end, leave the result unchanged |
| SlackBotBackup.LineEffect | example/sample-slack-bot/app/main_bk.py:115-121 | one iteration: a blank line is skipped, a line without a colon aborts, a stripped `data` field whose value holds the stop marker replaces the payload or aborts when it does not decode, anything else is kept |
| SlackBotBackup.Scan | example/sample-slack-bot/app/main_bk.py:111-121 | the reference definition of the loop: the payload left by the last replacing line, or the error of the first aborting line |
| SlackBotBackup.ScanSucceeds | example/sample-slack-bot/app/main_bk.py:115-121 | the loop finishes exactly when no line is malformed and no qualifying payload fails to decode |
| SlackBotBackup.LastOneWins | example/sample-slack-bot/app/main_bk.py:119-121 | nothing is kept exactly when no line qualifies; otherwise the kept payload is that of the last qualifying line |
| SlackBotBackup.NothingKept | example/sample-slack-bot/app/main_bk.py:111-121 | a successful loop keeps nothing exactly when every line leaves the payload alone |
| SlackBotBackup.LastKept | example/sample-slack-bot/app/main_bk.py:119-121 | a kept payload comes from a qualifying line after which every line leaves the payload alone |
| SlackBotBackup.FinalQualifyingLine | example/sample-slack-bot/app/main_bk.py:119-121 | a qualifying line followed only by non-qualifying lines decides the kept payload |
| SlackBotBackup.DecodedLines | example/sample-slack-bot/app/main_bk.py:117-121 | a line is decoded only if its stripped form is `data:` followed by a value holding `"finish_reason":"stop"` |
| SlackBotBackup.OtherFieldsIgnored | example/sample-slack-bot/app/main_bk.py:117-119 | a line whose field is not exactly `data` is ignored: `event` lines, and `data` with a space before the colon |
| SlackBotBackup.LineWithoutColon | example/sample-slack-bot/app/main_bk.py:117 | a non-blank line without a colon makes the loop raise |
| SlackBotBackup.ReplyContent | example/sample-slack-bot/app/main_bk.py:126 | `response_json[-1]["content"]` is unbound when no line qualified; it succeeds exactly for a non-empty list whose last element is an object with `content`, and gives that value |
| SlackBotBackup.ThreadCookie | example/sample-slack-bot/app/main_bk.py:80 | the thread requests' cookie reads back to the channel-and-timestamp id |
| SlackBotBackup.StreamCookie | example/sample-slack-bot/app/main_bk.py:107 | the stream request's cookie reads back to the Slack user id |
| SlackBotBackup.IdsDiffer | example/sample-slack-bot/app/main_bk.py:65-107 | for a Slack user id without `-`, the run is requested as a different OpenGPTs user than the one that created or listed the thread |

## Left out

- The HTTP transport: the requests and their timeouts, and the client's other endpoints (health, ingest, assistants, threads, messages, history and `run`). They are I/O around the modelled parts. The client checks no HTTP status code; `delete_assistant` is a no-op.
- JSON decoding and pydantic validation: both are abstract functions. JSON numbers are kept as their literal text.
- The generator mechanics of `run_stream`: laziness, early abandonment, and the closing of the connection. A drained stream is modelled as the yielded lists plus the error that ended it.
- How the HTTP library serializes the request parameters and the JSON body. `to_request_params` is modelled up to the dictionary it returns.
- Schema.ToRequestParams: `content` is passed as the record value. Its JSON form is not modelled.
- `str.format` with conversions (`!r`), format specs (`:>10`), attribute or index fields, and positional fields: the templates use none of them.
- The Streamlit UI, the OAuth flow and configuration loading. They are glue around external services.
- The Slack side: event routing, signature checks, the URL-verification and retry dispatch of `slack_bot`, and the `say` call itself (only its thread and text are modelled).
- SlackBot.ReplyText: only string content is modelled. Python's `str()` of list or mapping content is not.
- The backup bot's thread creation and listing requests. These are `response.json()["thread_id"]` and `[0]["thread_id"]`. Only the ids they send are modelled.
- The random UUID of `NewClient` is a parameter (`freshId`).
- The `print` calls of the backup bot (main_bk.py:67 and 114) write to the console and change nothing the bot returns or sends.

Behaviour of the code that a reader of the event-stream format might not expect:

- A non-blank streamed line without a colon raises `ValueError` when it is unpacked into two names. It is not skipped as blank (`Client.LineWithoutColon`).
- A `data` line whose value is only whitespace is not skipped. The empty text is passed to the decoder (`Client.DataFrame`). That orjson rejects it is the decoder's behaviour, and the decoder is a parameter of this model.
- A `data` line before any `event` line is skipped. So is a `data` line under an event type other than `metadata`, `data` and `error` (`Client.IgnoredLines`).
- The round trip of request parameters is not exact:
  - an absent `additional_kwargs` is sent as `{}`;
  - `example=None` is sent as `False`;
  - `id` and `name` are dropped (`Schema.RequestParamsAgree`, `Schema.IdAndNameNotSent`).
- A `data` payload that is `{}` or `""` yields an empty list, because iterating over either gives nothing (`Client.Items`). A non-empty object or string fails.
