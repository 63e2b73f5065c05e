/**
 * The OpenGPTs REST client: the user id it is created with, the headers it
 * sends, and the line parser of a streamed run together with the reduction
 * that keeps the last message list of the stream.
 *
 * The HTTP response body is given as its sequence of lines. JSON decoding and
 * message validation are the two functions of a `Codec`.
 */
module Client {
  import opened Wrappers
  import opened PyText
  import opened JsonValues
  import opened Schema

  // ===== user id and headers

  const COOKIE_PREFIX := "opengpts_user_id="

  /** The lower-case hexadecimal digits. */
  predicate IsHexDigit(c: char) {
    ('0' <= c <= '9') || ('a' <= c <= 'f')
  }

  /** The text form of a UUID, `str(uuid.uuid4())`: five hyphen-separated groups of 8-4-4-4-12 hex digits. */
  predicate IsUuidText(s: string) {
    && |s| == 36
    && forall i :: 0 <= i < 36 ==> if i in {8, 13, 18, 23} then s[i] == '-' else IsHexDigit(s[i])
  }

  /** An `OpenGPTsClient`: its base url and the user id it sends with every request. */
  datatype OpenGptsClient = OpenGptsClient(url: string, userId: string) {

    /** The `headers` property. */
    function Headers(): (h: map<string, string>)
      ensures h.Keys == {"Content-Type", "Cookie"}
      ensures h["Content-Type"] == "application/json"
      ensures CookieUserId(h["Cookie"]) == Some(userId)
    {
      CookieRoundTrip(userId);
      map["Content-Type" := "application/json", "Cookie" := COOKIE_PREFIX + userId]
    }
  }

  /** Reads the user id back out of a `Cookie` header value: the partner of `Headers`. */
  function CookieUserId(cookie: string): Option<string> {
    if |cookie| >= |COOKIE_PREFIX| && cookie[..|COOKIE_PREFIX|] == COOKIE_PREFIX
    then Some(cookie[|COOKIE_PREFIX|..])
    else None
  }

  lemma CookieRoundTrip(userId: string)
    ensures CookieUserId(COOKIE_PREFIX + userId) == Some(userId)
  {
    assert (COOKIE_PREFIX + userId)[..|COOKIE_PREFIX|] == COOKIE_PREFIX;
    assert (COOKIE_PREFIX + userId)[|COOKIE_PREFIX|..] == userId;
  }

  /**
   * `OpenGPTsClient(url, opengpts_user_id)`: the random id `freshId`
   * (`str(uuid.uuid4())`) replaces a missing or empty user id.
   */
  function NewClient(url: string, userId: Option<string>, freshId: string): (c: OpenGptsClient)
    requires IsUuidText(freshId)
    ensures c.url == url
    ensures userId.Some? && userId.value != "" ==> c.userId == userId.value
    ensures userId.None? || userId.value == "" ==> c.userId == freshId
    ensures c.userId != ""
  {
    OpenGptsClient(url, OrElse(userId, freshId))
  }

  // ===== the streamed-run line parser

  /** The two external decoders: `orjson.loads` and the validation done by `Message(**m)`. */
  datatype Codec = Codec(decode: string -> Option<Json>, validate: map<string, Json> -> Option<Message>)

  /** Why a stream stops. */
  datatype StreamError =
    | MalformedLine          // a non-blank line without a colon: the two-way unpack raises ValueError
    | InvalidJson            // the decoder rejected the payload
    | MissingRunId           // a metadata payload that is not an object with a `run_id` key
    | InvalidMessages        // a data payload that is not a sequence of valid messages
    | RunFailed(detail: Json) // the `HTTPError` raised for an error frame, carrying its payload

  /** What one line does to the output. */
  datatype Outcome = Skip | Yield(messages: seq<Message>) | Fail(error: StreamError)

  /** The effect of one line: the event type after it and its outcome. */
  datatype Transition = Transition(next: Option<string>, outcome: Outcome)

  /**
   * The elements Python's `for m in payload` visits, for the payloads where
   * `Message(**m)` can succeed: a list gives its elements; an empty object or
   * empty string gives nothing. Any other payload fails, either because it is
   * not iterable or because its elements (keys or characters) are strings.
   */
  function Items(j: Json): (r: Option<seq<Json>>)
    ensures j.JArray? ==> r == Some(j.items)
    ensures !j.JArray? ==> (r.Some? <==> j == JObject(map[]) || j == JString(""))
    ensures !j.JArray? && r.Some? ==> r.value == []
  {
    match j
    case JArray(xs) => Some(xs)
    case JObject(fields) => if fields == map[] then Some([]) else None
    case JString(s) => if s == "" then Some([]) else None
    case _ => None
  }

  /** `[Message(**m) for m in items]`, failing at the first element that is not a valid message object. */
  function ValidateAll(validate: map<string, Json> -> Option<Message>, items: seq<Json>): (r: Option<seq<Message>>)
    ensures r.Some? <==> forall i :: 0 <= i < |items| ==> items[i].JObject? && validate(items[i].fields).Some?
    ensures r.Some? ==> |r.value| == |items|
    ensures r.Some? ==> forall i :: 0 <= i < |items| ==> r.value[i] == validate(items[i].fields).value
    decreases |items|
  {
    if items == [] then Some([])
    else if !items[0].JObject? then None
    else
      match (validate(items[0].fields), ValidateAll(validate, items[1..]))
      case (Some(m), Some(rest)) =>
        assert forall i :: 1 <= i < |items| ==> items[i] == items[1..][i - 1];
        Some([m] + rest)
      case (None, _) => None
      case (_, None) =>
        assert forall i :: 0 <= i < |items| - 1 ==> items[1..][i] == items[i + 1];
        None
  }

  /** The messages a `data` frame carries, element by element and in order. */
  function ToMessages(codec: Codec, payload: Json): Option<seq<Message>> {
    match Items(payload)
    case None => None
    case Some(items) => ValidateAll(codec.validate, items)
  }

  /** The field and value of a non-blank line, each stripped; `None` when the line has no colon. */
  function FieldAndValue(line: string): Option<(string, string)> {
    match SplitOnce(line, ':')
    case None => None
    case Some((f, v)) => Some((Strip(f), Strip(v)))
  }

  /** The event type after `line`: only an `event` line changes it, to its value. */
  function NextEventType(eventType: Option<string>, line: string): (r: Option<string>)
    ensures IsEventLine(line) ==> r == Some(FieldAndValue(line).value.1)
    ensures !IsEventLine(line) ==> r == eventType
  {
    if IsBlank(line) then eventType
    else match FieldAndValue(line)
      case Some((field, value)) => if field == "event" then Some(value) else eventType
      case None => eventType
  }

  /** The outcome of a `data` line whose stripped value is `payload`, under the current event type. */
  function DataOutcome(codec: Codec, eventType: Option<string>, payload: string): (o: Outcome)
    ensures eventType !in {Some("metadata"), Some("data"), Some("error")} ==> o == Skip
    ensures o.Yield? ==> eventType == Some("data")
    ensures eventType == Some("data") ==> o.Yield? || o.Fail?
    ensures eventType == Some("error") ==> o.Fail?
    ensures codec.decode(payload).None? && eventType in {Some("metadata"), Some("data"), Some("error")} ==>
              o == Fail(InvalidJson)
  {
    if eventType == Some("metadata") then
      match codec.decode(payload)
      case None => Fail(InvalidJson)
      case Some(j) => if j.JObject? && "run_id" in j.fields then Skip else Fail(MissingRunId)
    else if eventType == Some("data") then
      match codec.decode(payload)
      case None => Fail(InvalidJson)
      case Some(j) => (match ToMessages(codec, j) case None => Fail(InvalidMessages) case Some(ms) => Yield(ms))
    else if eventType == Some("error") then
      match codec.decode(payload)
      case None => Fail(InvalidJson)
      case Some(j) => Fail(RunFailed(j))
    else Skip
  }

  /** One iteration of the loop of `run_stream`: the reference definition that `StreamParser.Feed` implements. */
  function Step(codec: Codec, eventType: Option<string>, line: string): (t: Transition)
    ensures t.next == NextEventType(eventType, line)
  {
    if IsBlank(line) then Transition(eventType, Skip)
    else match FieldAndValue(line)
      case None => Transition(eventType, Fail(MalformedLine))
      case Some((field, value)) =>
        if field == "event" then Transition(Some(value), Skip)
        else if field == "data" then Transition(eventType, DataOutcome(codec, eventType, value))
        else Transition(eventType, Skip)
  }

  /** The parse state of one streamed run: the event type of the last `event` line. */
  class StreamParser {
    const codec: Codec
    var eventType: Option<string>

    constructor (codec: Codec)
      ensures this.codec == codec && eventType == None
    {
      this.codec := codec;
      eventType := None;
    }

    /** Processes one response line. */
    method Feed(line: string) returns (outcome: Outcome)
      modifies this
      ensures Transition(eventType, outcome) == Step(codec, old(eventType), line)
    {
      outcome := Skip;
      if IsBlank(line) {
        return;
      }
      var split := SplitOnce(line, ':');
      if split.None? {
        return Fail(MalformedLine);
      }
      var (event, data) := split.value;
      if Strip(event) == "event" {
        eventType := Some(Strip(data));
      }
      if eventType == Some("metadata") && Strip(event) == "data" {
        var decoded := codec.decode(Strip(data));
        if decoded.None? {
          return Fail(InvalidJson);
        }
        if !(decoded.value.JObject? && "run_id" in decoded.value.fields) {
          return Fail(MissingRunId);
        }
      } else if eventType == Some("data") && Strip(event) == "data" {
        var decoded := codec.decode(Strip(data));
        if decoded.None? {
          return Fail(InvalidJson);
        }
        var messages := ToMessages(codec, decoded.value);
        if messages.None? {
          return Fail(InvalidMessages);
        }
        outcome := Yield(messages.value);
      } else if eventType == Some("error") && Strip(event) == "data" {
        var decoded := codec.decode(Strip(data));
        if decoded.None? {
          return Fail(InvalidJson);
        }
        return Fail(RunFailed(decoded.value));
      }
    }
  }

  /** What a whole stream produces: the lists yielded, in order, and the error that ended it, if any. */
  datatype RunResult = RunResult(batches: seq<seq<Message>>, error: Option<StreamError>)

  /** Puts `before` in front of what `r` yielded. */
  function Prepend(before: seq<seq<Message>>, r: RunResult): RunResult {
    RunResult(before + r.batches, r.error)
  }

  /** What the rest of a run becomes after a line with the given outcome. */
  function Continue(outcome: Outcome, rest: RunResult): RunResult {
    match outcome
    case Skip => rest
    case Yield(ms) => Prepend([ms], rest)
    case Fail(e) => RunResult([], Some(e))
  }

  /** A line processor: the transition a line takes from a given event type. */
  type LineStep = (Option<string>, string) -> Transition

  /** The line processor of `run_stream`. */
  function Parse(codec: Codec): LineStep {
    (eventType, line) => Step(codec, eventType, line)
  }

  /**
   * A stream of lines run through a line processor from `eventType`: the
   * reference definition of `run_stream` is `Run(Parse(codec), None, lines)`.
   */
  function Run(step: LineStep, eventType: Option<string>, lines: seq<string>): RunResult
    decreases |lines|
  {
    if lines == [] then RunResult([], None)
    else
      var t := step(eventType, lines[0]);
      Continue(t.outcome, Run(step, t.next, lines[1..]))
  }

  /** The event type after a sequence of lines. */
  function StateAfter(step: LineStep, eventType: Option<string>, lines: seq<string>): Option<string>
    decreases |lines|
  {
    if lines == [] then eventType else StateAfter(step, step(eventType, lines[0]).next, lines[1..])
  }

  /** One more line of a run: how the lists so far and the rest of the run change. */
  lemma RunAdvance(step: LineStep, lines: seq<string>, i: nat, before: Option<string>, t: Transition,
                   batches: seq<seq<Message>>)
    requires i < |lines| && t == step(before, lines[i])
    requires Run(step, None, lines) == Prepend(batches, Run(step, before, lines[i..]))
    ensures t.outcome.Skip? ==> Run(step, None, lines) == Prepend(batches, Run(step, t.next, lines[i + 1..]))
    ensures t.outcome.Yield? ==>
              Run(step, None, lines) == Prepend(batches + [t.outcome.messages], Run(step, t.next, lines[i + 1..]))
    ensures t.outcome.Fail? ==> Run(step, None, lines) == RunResult(batches, Some(t.outcome.error))
  {
    assert lines[i..][1..] == lines[i + 1..];
    assert lines[i..][0] == lines[i];
  }

  /** `run_stream` drained: what the generator yields before it ends or raises. */
  method RunStream(codec: Codec, lines: seq<string>) returns (batches: seq<seq<Message>>, error: Option<StreamError>)
    ensures RunResult(batches, error) == Run(Parse(codec), None, lines)
  {
    var parser := new StreamParser(codec);
    batches, error := [], None;
    var i := 0;
    while i < |lines|
      invariant 0 <= i <= |lines|
      invariant parser.codec == codec
      invariant Run(Parse(codec), None, lines) == Prepend(batches, Run(Parse(codec), parser.eventType, lines[i..]))
    {
      ghost var before := parser.eventType;
      var outcome := parser.Feed(lines[i]);
      RunAdvance(Parse(codec), lines, i, before, Transition(parser.eventType, outcome), batches);
      if outcome.Fail? {
        error := Some(outcome.error);
        return;
      }
      if outcome.Yield? {
        batches := batches + [outcome.messages];
      }
      i := i + 1;
    }
    assert lines[i..] == [];
  }

  /** Why `run_and_get_messages` gives no list. */
  datatype RunError = StreamFailed(cause: StreamError) | NoMessages

  /**
   * `run_and_get_messages`: the stream drained into a list, then its last
   * element. An error anywhere in the stream propagates; an empty list makes
   * `[-1]` raise `IndexError`.
   */
  method RunAndGetMessages(codec: Codec, lines: seq<string>) returns (r: Result<seq<Message>, RunError>)
    ensures var run := Run(Parse(codec), None, lines);
            && (run.error.Some? ==> r == Err(StreamFailed(run.error.value)))
            && (run.error.None? && run.batches == [] ==> r == Err(NoMessages))
            && (run.error.None? && run.batches != [] ==> r == Ok(run.batches[|run.batches| - 1]))
  {
    var batches, error := RunStream(codec, lines);
    if error.Some? {
      return Err(StreamFailed(error.value));
    }
    if batches == [] {
      return Err(NoMessages);
    }
    return Ok(batches[|batches| - 1]);
  }

  // ===== properties of single lines

  lemma AllSpacePrefix(a: string, b: string)
    requires AllSpace(a + b)
    ensures AllSpace(a)
  {
    assert forall i :: 0 <= i < |a| ==> a[i] == (a + b)[i];
  }

  /** A line `field:value` whose field has no colon is split at that colon, and both halves are stripped. */
  lemma {:induction false} FieldAndValueOf(field: string, value: string)
    requires ':' !in field
    ensures FieldAndValue(field + ":" + value) == Some((Strip(field), Strip(value)))
    ensures Strip(field) != "" ==> !IsBlank(field + ":" + value)
  {
    SplitOnceOf(field, ':', value);
    if Strip(field) != "" && IsBlank(field + ":" + value) {
      AllSpacePrefix(field, ":" + value);
    }
  }

  /** A non-blank line with no colon ends the stream with `ValueError`. */
  lemma LineWithoutColon(codec: Codec, eventType: Option<string>, line: string)
    requires !IsBlank(line) && ':' !in line
    ensures Step(codec, eventType, line) == Transition(eventType, Fail(MalformedLine))
  {
  }

  /** A blank line changes nothing. */
  lemma BlankLine(codec: Codec, eventType: Option<string>, line: string)
    requires IsBlank(line)
    ensures Step(codec, eventType, line) == Transition(eventType, Skip)
  {
  }

  /**
   * Lines that change nothing: lines whose stripped field is neither `event`
   * nor `data`, and `data` lines while the event type is not one of
   * `metadata`, `data` and `error` (in particular before any `event` line).
   */
  lemma {:induction false} IgnoredLines(codec: Codec, eventType: Option<string>, field: string, value: string)
    requires ':' !in field
    requires || Strip(field) !in {"event", "data"}
             || (Strip(field) == "data" && eventType !in {Some("metadata"), Some("data"), Some("error")})
    ensures Step(codec, eventType, field + ":" + value) == Transition(eventType, Skip)
  {
    FieldAndValueOf(field, value);
  }

  /** An `event` line sets the event type to its stripped value and yields nothing. */
  lemma {:induction false} EventLine(codec: Codec, eventType: Option<string>, field: string, value: string)
    requires ':' !in field && Strip(field) == "event"
    ensures Step(codec, eventType, field + ":" + value) == Transition(Some(Strip(value)), Skip)
  {
    FieldAndValueOf(field, value);
  }

  /**
   * A `data` line while the event type is `metadata` yields nothing; it
   * fails unless its payload decodes to an object with a `run_id` key.
   */
  lemma {:induction false} MetadataFrame(codec: Codec, field: string, value: string)
    requires ':' !in field && Strip(field) == "data"
    ensures var t := Step(codec, Some("metadata"), field + ":" + value);
            var j := codec.decode(Strip(value));
            && t.next == Some("metadata")
            && (t.outcome == Skip <==> j.Some? && j.value.JObject? && "run_id" in j.value.fields)
            && (t.outcome != Skip ==> t.outcome == Fail(if j.None? then InvalidJson else MissingRunId))
  {
    FieldAndValueOf(field, value);
  }

  /**
   * A `data` line while the event type is `data` yields exactly one list:
   * the decoded payload's elements, each validated as a message, in order.
   */
  lemma {:induction false} DataFrame(codec: Codec, field: string, value: string)
    requires ':' !in field && Strip(field) == "data"
    ensures var t := Step(codec, Some("data"), field + ":" + value);
            var j := codec.decode(Strip(value));
            && t.next == Some("data")
            && (t.outcome.Yield? <==> j.Some? && ToMessages(codec, j.value).Some?)
            && (t.outcome.Yield? ==> t.outcome.messages == ToMessages(codec, j.value).value)
            && (!t.outcome.Yield? ==> t.outcome == Fail(if j.None? then InvalidJson else InvalidMessages))
  {
    FieldAndValueOf(field, value);
  }

  /** A decoded JSON array yields its elements as messages, one for one and in order, or fails. */
  lemma ArrayPayload(codec: Codec, items: seq<Json>)
    ensures ToMessages(codec, JArray(items)).Some? <==>
              forall i :: 0 <= i < |items| ==> items[i].JObject? && codec.validate(items[i].fields).Some?
    ensures ToMessages(codec, JArray(items)).Some? ==>
              var ms := ToMessages(codec, JArray(items)).value;
              |ms| == |items| && forall i :: 0 <= i < |items| ==> ms[i] == codec.validate(items[i].fields).value
  {
  }

  /** A `data` line while the event type is `error` always ends the stream, with the decoded payload. */
  lemma {:induction false} ErrorFrame(codec: Codec, field: string, value: string)
    requires ':' !in field && Strip(field) == "data"
    ensures var t := Step(codec, Some("error"), field + ":" + value);
            var j := codec.decode(Strip(value));
            && t.next == Some("error")
            && t.outcome == Fail(if j.None? then InvalidJson else RunFailed(j.value))
  {
    FieldAndValueOf(field, value);
  }

  // ===== properties of whole streams

  /** The event type after a stream is decided by its `event` lines alone. */
  lemma {:induction false} StateAfterParse(codec: Codec, eventType: Option<string>, lines: seq<string>)
    ensures StateAfter(Parse(codec), eventType, lines) == EventTypeAfter(eventType, lines)
    decreases |lines|
  {
    if lines != [] {
      StateAfterParse(codec, NextEventType(eventType, lines[0]), lines[1..]);
    }
  }

  /** The event type after `lines`, from `event` lines only. */
  function EventTypeAfter(eventType: Option<string>, lines: seq<string>): Option<string>
    decreases |lines|
  {
    if lines == [] then eventType else EventTypeAfter(NextEventType(eventType, lines[0]), lines[1..])
  }

  /** The line is a non-blank line whose stripped field is `event`. */
  predicate IsEventLine(line: string) {
    !IsBlank(line) && FieldAndValue(line).Some? && FieldAndValue(line).value.0 == "event"
  }

  /** The line is a non-blank line whose stripped field is `data`. */
  predicate IsDataLine(line: string) {
    !IsBlank(line) && FieldAndValue(line).Some? && FieldAndValue(line).value.0 == "data"
  }

  /** Reading `a + b` leaves the event type that reading `b` leaves after `a`. */
  lemma {:induction false} EventTypeAppend(eventType: Option<string>, a: seq<string>, b: seq<string>)
    ensures EventTypeAfter(eventType, a + b) == EventTypeAfter(EventTypeAfter(eventType, a), b)
    decreases |a|
  {
    if a == [] {
      assert a + b == b;
    } else {
      assert (a + b)[0] == a[0] && (a + b)[1..] == a[1..] + b;
      EventTypeAppend(NextEventType(eventType, a[0]), a[1..], b);
    }
  }

  /** After a stream, the event type is the stripped value of its last `event` line. */
  lemma LastEventLine(eventType: Option<string>, a: seq<string>, line: string, b: seq<string>)
    requires IsEventLine(line)
    requires forall k :: 0 <= k < |b| ==> !IsEventLine(b[k])
    ensures EventTypeAfter(eventType, a + [line] + b) == Some(FieldAndValue(line).value.1)
  {
    EventTypeAppend(eventType, a + [line], b);
    EventTypeAppend(eventType, a, [line]);
    var e := EventTypeAfter(eventType, a);
    assert [line][1..] == [];
    assert EventTypeAfter(e, [line]) == NextEventType(e, line) == Some(FieldAndValue(line).value.1);
    TypePersists(NextEventType(e, line), b);
  }

  /** The event type persists across every line that is not an `event` line. */
  lemma {:induction false} TypePersists(eventType: Option<string>, lines: seq<string>)
    requires forall k :: 0 <= k < |lines| ==> !IsEventLine(lines[k])
    ensures EventTypeAfter(eventType, lines) == eventType
    decreases |lines|
  {
    if lines != [] {
      TypePersists(eventType, lines[1..]);
    }
  }

  /**
   * A stream is processed line after line: running `a + b` is running `a`
   * and, unless `a` failed, continuing with `b` from the event type `a` left.
   * So nothing after a failing line is processed.
   */
  lemma {:induction false} RunAppend(step: LineStep, eventType: Option<string>, a: seq<string>, b: seq<string>)
    ensures Run(step, eventType, a + b) ==
              if Run(step, eventType, a).error.Some? then Run(step, eventType, a)
              else Prepend(Run(step, eventType, a).batches, Run(step, StateAfter(step, eventType, a), b))
    decreases |a|
  {
    if a == [] {
      assert a + b == b;
    } else {
      assert (a + b)[0] == a[0] && (a + b)[1..] == a[1..] + b;
      RunAppend(step, step(eventType, a[0]).next, a[1..], b);
    }
  }

  /** A line that neither changes the event type nor yields nor fails, from any event type. */
  predicate IsNeutral(line: string) {
    IsBlank(line) || (FieldAndValue(line).Some? && FieldAndValue(line).value.0 !in {"event", "data"})
  }

  /** Inserting a blank line, or a line with another field, anywhere in a stream changes nothing. */
  lemma NeutralLineInserted(codec: Codec, eventType: Option<string>, a: seq<string>, line: string, b: seq<string>)
    requires IsNeutral(line)
    ensures Run(Parse(codec), eventType, a + [line] + b) == Run(Parse(codec), eventType, a + b)
  {
    var step := Parse(codec);
    RunAppend(step, eventType, a, [line] + b);
    RunAppend(step, eventType, a, b);
    assert a + [line] + b == a + ([line] + b);
    assert ([line] + b)[0] == line && ([line] + b)[1..] == b;
    var e := StateAfter(step, eventType, a);
    assert step(e, line) == Transition(e, Skip);
  }

  /**
   * A `data` line met while the event type is `error` ends the stream: what
   * was yielded before it stands, and no later line is processed.
   */
  lemma ErrorFrameEndsRun(codec: Codec, eventType: Option<string>, before: seq<string>, line: string, after: seq<string>)
    requires Run(Parse(codec), eventType, before).error.None?
    requires EventTypeAfter(eventType, before) == Some("error") && IsDataLine(line)
    ensures var j := codec.decode(FieldAndValue(line).value.1);
            Run(Parse(codec), eventType, before + [line] + after) ==
              RunResult(Run(Parse(codec), eventType, before).batches,
                        Some(if j.None? then InvalidJson else RunFailed(j.value)))
  {
    var step := Parse(codec);
    RunAppend(step, eventType, before, [line] + after);
    StateAfterParse(codec, eventType, before);
    assert before + [line] + after == before + ([line] + after);
    assert ([line] + after)[0] == line;
    assert step(Some("error"), line) == Step(codec, Some("error"), line);
  }

  /** The number of `data` lines met while the event type is `data`. */
  function DataFrameCount(eventType: Option<string>, lines: seq<string>): nat
    decreases |lines|
  {
    if lines == [] then 0
    else (if eventType == Some("data") && IsDataLine(lines[0]) then 1 else 0)
         + DataFrameCount(NextEventType(eventType, lines[0]), lines[1..])
  }

  /** Only a `data` line met while the event type is `data` yields, and such a line always yields or fails. */
  lemma YieldingLines(codec: Codec, eventType: Option<string>, line: string)
    ensures Step(codec, eventType, line).outcome.Yield? ==> eventType == Some("data") && IsDataLine(line)
    ensures eventType == Some("data") && IsDataLine(line) ==> !Step(codec, eventType, line).outcome.Skip?
  {
    var t := Step(codec, eventType, line);
    if IsBlank(line) {
      assert t.outcome == Skip;
    } else {
      match FieldAndValue(line)
      case None =>
        assert t.outcome == Fail(MalformedLine);
      case Some((field, value)) =>
        if field == "data" {
          assert t.outcome == DataOutcome(codec, eventType, value);
        } else {
          assert t.outcome == Skip;
        }
    }
  }

  lemma {:induction false} RunCount(step: LineStep, eventType: Option<string>, lines: seq<string>,
                                     counted: (Option<string>, string) -> bool)
    requires forall e, l :: step(e, l).outcome.Yield? ==> counted(e, l)
    requires forall e, l :: counted(e, l) ==> !step(e, l).outcome.Skip?
    ensures |Run(step, eventType, lines).batches| <= Count(step, counted, eventType, lines)
    ensures Run(step, eventType, lines).error.None? ==>
              |Run(step, eventType, lines).batches| == Count(step, counted, eventType, lines)
    decreases |lines|
  {
    if lines != [] {
      RunCount(step, step(eventType, lines[0]).next, lines[1..], counted);
    }
  }

  /** The number of lines of `lines` that `counted` picks out, threading the event type through `step`. */
  function Count(step: LineStep, counted: (Option<string>, string) -> bool, eventType: Option<string>,
                 lines: seq<string>): nat
    decreases |lines|
  {
    if lines == [] then 0
    else (if counted(eventType, lines[0]) then 1 else 0) + Count(step, counted, step(eventType, lines[0]).next, lines[1..])
  }

  lemma {:induction false} CountParse(codec: Codec, eventType: Option<string>, lines: seq<string>)
    ensures Count(Parse(codec), DataFrameAt, eventType, lines) == DataFrameCount(eventType, lines)
    decreases |lines|
  {
    if lines != [] {
      CountParse(codec, NextEventType(eventType, lines[0]), lines[1..]);
    }
  }

  predicate DataFrameAt(eventType: Option<string>, line: string) {
    eventType == Some("data") && IsDataLine(line)
  }

  /**
   * One list is yielded per `data` line met while the event type is `data`:
   * exactly that many when the stream ends normally, no more when it fails.
   */
  lemma BatchCount(codec: Codec, eventType: Option<string>, lines: seq<string>)
    ensures |Run(Parse(codec), eventType, lines).batches| <= DataFrameCount(eventType, lines)
    ensures Run(Parse(codec), eventType, lines).error.None? ==>
              |Run(Parse(codec), eventType, lines).batches| == DataFrameCount(eventType, lines)
  {
    forall e, l ensures Parse(codec)(e, l).outcome.Yield? ==> DataFrameAt(e, l)
                ensures DataFrameAt(e, l) ==> !Parse(codec)(e, l).outcome.Skip? {
      YieldingLines(codec, e, l);
    }
    RunCount(Parse(codec), eventType, lines, DataFrameAt);
    CountParse(codec, eventType, lines);
  }

  lemma StrippedNames()
    ensures Strip("event") == "event" && Strip("data") == "data"
    ensures Strip(" metadata") == "metadata" && Strip(" data") == "data"
  {
    EventNameStripped();
    DataNameStripped();
    MetadataNameStripped();
  }

  lemma EventNameStripped()
    ensures Strip("event") == "event"
  {
    StripTrimmed("event");
  }

  lemma DataNameStripped()
    ensures Strip("data") == "data" && Strip(" data") == "data"
  {
    StripTrimmed("data");
  }

  lemma MetadataNameStripped()
    ensures Strip(" metadata") == "metadata"
  {
    StripTrimmed("metadata");
  }

  /** The first line of a run, then the rest. */
  lemma RunCons(step: LineStep, eventType: Option<string>, line: string, rest: seq<string>)
    ensures Run(step, eventType, [line] + rest) ==
              Continue(step(eventType, line).outcome, Run(step, step(eventType, line).next, rest))
  {
    assert ([line] + rest)[0] == line && ([line] + rest)[1..] == rest;
  }

  lemma EventLineLiteral(codec: Codec, eventType: Option<string>)
    ensures Step(codec, eventType, "event" + ":" + " metadata") == Transition(Some("metadata"), Skip)
    ensures Step(codec, eventType, "event" + ":" + " data") == Transition(Some("data"), Skip)
  {
    StrippedNames();
    EventLine(codec, eventType, "event", " metadata");
    EventLine(codec, eventType, "event", " data");
  }

  /** A payload holding one valid message object decodes to that one message. */
  lemma SingleMessagePayload(codec: Codec, m: map<string, Json>, msg: Message)
    requires codec.validate(m) == Some(msg)
    ensures ToMessages(codec, JArray([JObject(m)])) == Some([msg])
  {
    var items := [JObject(m)];
    assert forall i :: 0 <= i < |items| ==> items[i] == JObject(m);
    ArrayPayload(codec, items);
    var ms := ToMessages(codec, JArray(items)).value;
    assert ms == [msg];
  }

  lemma MetadataLine(codec: Codec, meta: string)
    requires codec.decode(Strip(meta)).Some? && codec.decode(Strip(meta)).value.JObject?
    requires "run_id" in codec.decode(Strip(meta)).value.fields
    ensures Step(codec, Some("metadata"), "data" + ":" + meta) == Transition(Some("metadata"), Skip)
  {
    StrippedNames();
    MetadataFrame(codec, "data", meta);
  }

  lemma SingleMessageLine(codec: Codec, data: string, m: map<string, Json>, msg: Message)
    requires codec.decode(Strip(data)) == Some(JArray([JObject(m)])) && codec.validate(m) == Some(msg)
    ensures Step(codec, Some("data"), "data" + ":" + data) == Transition(Some("data"), Yield([msg]))
  {
    StrippedNames();
    DataFrame(codec, "data", data);
    SingleMessagePayload(codec, m, msg);
  }

  /** Four lines run through a line processor, one transition each. */
  lemma RunFour(step: LineStep, e: Option<string>, l0: string, l1: string, l2: string, l3: string,
                t0: Transition, t1: Transition, t2: Transition, t3: Transition)
    requires step(e, l0) == t0 && step(t0.next, l1) == t1 && step(t1.next, l2) == t2 && step(t2.next, l3) == t3
    ensures Run(step, e, [l0, l1, l2, l3]) ==
              Continue(t0.outcome, Continue(t1.outcome, Continue(t2.outcome, Continue(t3.outcome, RunResult([], None)))))
  {
    RunCons(step, t2.next, l3, []);
    RunCons(step, t1.next, l2, [l3]);
    RunCons(step, t0.next, l1, [l2, l3]);
    RunCons(step, e, l0, [l1, l2, l3]);
    assert [l0, l1, l2, l3] == [l0] + [l1, l2, l3];
    assert [l1, l2, l3] == [l1] + [l2, l3];
    assert [l2, l3] == [l2] + [l3];
    assert [l3] == [l3] + [];
  }

  /**
   * A metadata frame followed by one data frame holding a single message
   * object: the stream yields exactly that one message list and ends normally.
   */
  lemma MetadataThenData(codec: Codec, meta: string, data: string, m: map<string, Json>, msg: Message)
    requires codec.decode(Strip(meta)).Some? && codec.decode(Strip(meta)).value.JObject?
    requires "run_id" in codec.decode(Strip(meta)).value.fields
    requires codec.decode(Strip(data)) == Some(JArray([JObject(m)])) && codec.validate(m) == Some(msg)
    ensures Run(Parse(codec), None, ["event" + ":" + " metadata", "data" + ":" + meta, "event" + ":" + " data", "data" + ":" + data]) ==
              RunResult([[msg]], None)
  {
    EventLineLiteral(codec, None);
    EventLineLiteral(codec, Some("metadata"));
    MetadataLine(codec, meta);
    SingleMessageLine(codec, data, m, msg);
    RunFour(Parse(codec), None, "event" + ":" + " metadata", "data" + ":" + meta, "event" + ":" + " data", "data" + ":" + data,
            Transition(Some("metadata"), Skip), Transition(Some("metadata"), Skip),
            Transition(Some("data"), Skip), Transition(Some("data"), Yield([msg])));
  }
}
