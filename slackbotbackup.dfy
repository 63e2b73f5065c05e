/**
 * The earlier version of the Slack bot, which reads the run stream itself:
 * it keeps the payload of the last `data` line that reports
 * `"finish_reason":"stop"` and replies with that payload's last `content`.
 * It also sends two different user ids to OpenGPTs.
 */
module SlackBotBackup {
  import opened Wrappers
  import opened PyText
  import opened JsonValues
  import SlackBot
  import Client

  /** The substring a payload must contain to be decoded. */
  const FINISH_STOP := "\"finish_reason\":\"stop\""

  /** Why the loop over the stream raises. */
  datatype ScanError =
    | MalformedLine   // a non-blank line without a colon: unpacking `split(":", 1)` into two names fails
    | InvalidJson     // `json.loads` rejects a qualifying payload

  /** What one line does to the kept payload `response_json`. */
  datatype Effect = Keep | Replace(payload: Json) | Abort(error: ScanError)

  /** One iteration of the loop over `response.iter_lines`. */
  function LineEffect(decode: string -> Option<Json>, line: string): Effect {
    if IsBlank(line) then Keep
    else match SplitOnce(Strip(line), ':')
      case None => Abort(MalformedLine)
      case Some((event, data)) =>
        if event == "data" && Contains(Strip(data), FINISH_STOP) then
          match decode(Strip(data))
          case None => Abort(InvalidJson)
          case Some(j) => Replace(j)
        else Keep
  }

  /** A per-line rule: what a line does to the kept payload. */
  type LineRule = string -> Effect

  /** The rule of the loop over the stream. */
  function Rule(decode: string -> Option<Json>): LineRule {
    line => LineEffect(decode, line)
  }

  /**
   * The reference definition of the loop: the kept payload after `lines`, or
   * the error that stopped it. `None` is a `response_json` never assigned.
   * The loop itself is `Scan(Rule(decode), lines)`.
   */
  function Scan(rule: LineRule, lines: seq<string>): Result<Option<Json>, ScanError>
    decreases |lines|
  {
    if lines == [] then Ok(None)
    else match Scan(rule, lines[..|lines| - 1])
      case Err(e) => Err(e)
      case Ok(kept) =>
        match rule(lines[|lines| - 1])
        case Keep => Ok(kept)
        case Replace(j) => Ok(Some(j))
        case Abort(e) => Err(e)
  }

  /** The loop of the stream request, line by line. */
  method LastStopPayload(decode: string -> Option<Json>, lines: seq<string>) returns (r: Result<Option<Json>, ScanError>)
    ensures r == Scan(Rule(decode), lines)
  {
    var responseJson: Option<Json> := None;
    var i := 0;
    while i < |lines|
      invariant 0 <= i <= |lines|
      invariant Scan(Rule(decode), lines[..i]) == Ok(responseJson)
    {
      ScanAdvance(Rule(decode), lines, i, responseJson);
      var msg := lines[i];
      if !IsBlank(msg) {
        var split := SplitOnce(Strip(msg), ':');
        if split.None? {
          assert LineEffect(decode, msg) == Abort(MalformedLine);
          return Err(MalformedLine);
        }
        var (event, data) := split.value;
        if event == "data" && Contains(Strip(data), FINISH_STOP) {
          var decoded := decode(Strip(data));
          if decoded.None? {
            assert LineEffect(decode, msg) == Abort(InvalidJson);
              return Err(InvalidJson);
          }
          assert LineEffect(decode, msg) == Replace(decoded.value);
          responseJson := decoded;
        } else {
          assert LineEffect(decode, msg) == Keep;
        }
      } else {
        assert LineEffect(decode, msg) == Keep;
      }
      i := i + 1;
    }
    assert lines[..i] == lines;
    return Ok(responseJson);
  }

  /** One more line of the loop: the kept payload after it, or the error the whole stream ends with. */
  lemma ScanAdvance(rule: LineRule, lines: seq<string>, i: nat, kept: Option<Json>)
    requires i < |lines| && Scan(rule, lines[..i]) == Ok(kept)
    ensures rule(lines[i]) == Keep ==> Scan(rule, lines[..i + 1]) == Ok(kept)
    ensures rule(lines[i]).Replace? ==> Scan(rule, lines[..i + 1]) == Ok(Some(rule(lines[i]).payload))
    ensures rule(lines[i]).Abort? ==> Scan(rule, lines) == Err(rule(lines[i]).error)
  {
    var a, line, rest := lines[..i], lines[i], lines[i + 1..];
    AroundIndex(lines, i);
    if rule(line).Abort? {
      ScanAbort(rule, a, line, rest);
    } else {
      ScanSnoc(rule, a, line);
    }
  }

  /** A sequence cut around one of its elements. */
  lemma AroundIndex<T>(s: seq<T>, i: nat)
    requires i < |s|
    ensures s[..i + 1] == s[..i] + [s[i]]
    ensures s == s[..i] + [s[i]] + s[i + 1..]
  {
  }

  /** A line that aborts after a successful prefix decides the result of the whole stream. */
  lemma ScanAbort(rule: LineRule, a: seq<string>, line: string, rest: seq<string>)
    requires Scan(rule, a).Ok? && rule(line).Abort?
    ensures Scan(rule, a + [line] + rest) == Err(rule(line).error)
  {
    ScanSnoc(rule, a, line);
    ErrorPersists(rule, a + [line], rest);
  }

  /** The definition of `Scan` read forwards: one line appended. */
  lemma ScanSnoc(rule: LineRule, a: seq<string>, line: string)
    ensures Scan(rule, a + [line]) ==
              match Scan(rule, a)
              case Err(e) => Err(e)
              case Ok(kept) =>
                match rule(line)
                case Keep => Ok(kept)
                case Replace(j) => Ok(Some(j))
                case Abort(e) => Err(e)
  {
    var p := a + [line];
    assert p[..|p| - 1] == a && p[|p| - 1] == line;
  }

  /** Once the loop has raised, later lines are never read. */
  lemma {:induction false} ErrorPersists(rule: LineRule, a: seq<string>, b: seq<string>)
    requires Scan(rule, a).Err?
    ensures Scan(rule, a + b) == Scan(rule, a)
    decreases |b|
  {
    if b == [] {
      assert a + b == a;
    } else {
      var c := b[..|b| - 1];
      assert (a + b)[..|a + b| - 1] == a + c;
      ErrorPersists(rule, a, c);
    }
  }

  /** Lines that leave the payload alone do not change the result. */
  lemma {:induction false} KeptLines(rule: LineRule, a: seq<string>, b: seq<string>)
    requires forall k :: 0 <= k < |b| ==> rule(b[k]) == Keep
    ensures Scan(rule, a + b) == Scan(rule, a)
    decreases |b|
  {
    if b == [] {
      assert a + b == a;
    } else {
      var c := b[..|b| - 1];
      assert (a + b)[..|a + b| - 1] == a + c;
      assert (a + b)[|a + b| - 1] == b[|b| - 1];
      KeptLines(rule, a, c);
    }
  }

  /** The stream finishes exactly when no line aborts it. */
  lemma {:induction false} ScanSucceeds(rule: LineRule, lines: seq<string>)
    ensures Scan(rule, lines).Ok? <==> forall k :: 0 <= k < |lines| ==> !rule(lines[k]).Abort?
    decreases |lines|
  {
    if lines != [] {
      var c := lines[..|lines| - 1];
      ScanSucceeds(rule, c);
      if Scan(rule, c).Err? {
        var k :| 0 <= k < |c| && rule(c[k]).Abort?;
        assert lines[k] == c[k];
      }
    }
  }

  /**
   * Last one wins: the kept payload is that of the last qualifying line, and
   * nothing is kept when no line qualifies.
   */
  lemma LastOneWins(rule: LineRule, lines: seq<string>)
    requires Scan(rule, lines).Ok?
    ensures Scan(rule, lines).value.None? <==> forall k :: 0 <= k < |lines| ==> rule(lines[k]) == Keep
    ensures Scan(rule, lines).value.Some? ==>
              exists i :: 0 <= i < |lines| && rule(lines[i]) == Replace(Scan(rule, lines).value.value) &&
                forall k :: i < k < |lines| ==> rule(lines[k]) == Keep
  {
    NothingKept(rule, lines);
    if Scan(rule, lines).value.Some? {
      LastKept(rule, lines);
    }
  }

  lemma {:induction false} NothingKept(rule: LineRule, lines: seq<string>)
    requires Scan(rule, lines).Ok?
    ensures Scan(rule, lines).value.None? <==> forall k :: 0 <= k < |lines| ==> rule(lines[k]) == Keep
    decreases |lines|
  {
    if lines != [] {
      var c, line := lines[..|lines| - 1], lines[|lines| - 1];
      assert forall k :: 0 <= k < |c| ==> lines[k] == c[k];
      NothingKept(rule, c);
    }
  }

  lemma {:induction false} LastKept(rule: LineRule, lines: seq<string>)
    requires Scan(rule, lines).Ok? && Scan(rule, lines).value.Some?
    ensures exists i :: 0 <= i < |lines| && rule(lines[i]) == Replace(Scan(rule, lines).value.value) &&
              forall k :: i < k < |lines| ==> rule(lines[k]) == Keep
    decreases |lines|
  {
    var c, last := lines[..|lines| - 1], |lines| - 1;
    if rule(lines[last]) == Keep {
      assert Scan(rule, lines) == Scan(rule, c);
      LastKept(rule, c);
      var i :| 0 <= i < |c| && rule(c[i]) == Replace(Scan(rule, c).value.value) &&
        forall k :: i < k < |c| ==> rule(c[k]) == Keep;
      assert forall k :: i < k < |c| ==> lines[k] == c[k];
      assert rule(lines[i]) == Replace(Scan(rule, lines).value.value);
    } else {
      assert rule(lines[last]) == Replace(Scan(rule, lines).value.value);
    }
  }

  /** A qualifying line after which nothing else qualifies decides the payload. */
  lemma FinalQualifyingLine(rule: LineRule, a: seq<string>, line: string, b: seq<string>, j: Json)
    requires Scan(rule, a).Ok? && rule(line) == Replace(j)
    requires forall k :: 0 <= k < |b| ==> rule(b[k]) == Keep
    ensures Scan(rule, a + [line] + b) == Ok(Some(j))
  {
    KeptLines(rule, a + [line], b);
    assert (a + [line])[..|a + [line]| - 1] == a;
  }

  /** A line is decoded only if, once stripped, its field is exactly `data` and its value holds the stop marker. */
  lemma DecodedLines(decode: string -> Option<Json>, line: string)
    requires LineEffect(decode, line).Replace?
    ensures exists data :: Strip(line) == "data" + ":" + data && Contains(Strip(data), FINISH_STOP) &&
                           decode(Strip(data)) == Some(LineEffect(decode, line).payload)
  {
    var (event, data) := SplitOnce(Strip(line), ':').value;
    assert Strip(line) == "data" + ":" + data;
  }

  /** A line whose field is not exactly `data` (an `event` line, or `data` with a space before the colon) is ignored. */
  lemma OtherFieldsIgnored(decode: string -> Option<Json>, line: string, field: string, rest: string)
    requires Strip(line) == field + ":" + rest && ':' !in field && field != "data"
    ensures LineEffect(decode, line) == Keep
  {
    SplitOnceOf(field, ':', rest);
  }

  /** A non-blank line without a colon stops the loop. */
  lemma LineWithoutColon(decode: string -> Option<Json>, line: string)
    requires !IsBlank(line) && ':' !in Strip(line)
    ensures LineEffect(decode, line) == Abort(MalformedLine)
  {
  }

  // ===== the reply text

  /** Why `response_json[-1]["content"]` raises. */
  datatype ReplyError =
    | NoFinalPayload   // no line qualified, so `response_json` is unbound
    | NoContent        // the payload is not a non-empty list whose last element is an object with `content`

  /** `response_json[-1]["content"]`. */
  function ReplyContent(payload: Option<Json>): (r: Result<Json, ReplyError>)
    ensures payload.None? ==> r == Err(NoFinalPayload)
    ensures r.Ok? <==> payload.Some? && payload.value.JArray? && |payload.value.items| > 0 &&
                       var last := payload.value.items[|payload.value.items| - 1];
                       last.JObject? && "content" in last.fields
    ensures r.Ok? ==> r.value == payload.value.items[|payload.value.items| - 1].fields["content"]
  {
    match payload
    case None => Err(NoFinalPayload)
    case Some(j) =>
      if j.JArray? && j.items != [] && j.items[|j.items| - 1].JObject? && "content" in j.items[|j.items| - 1].fields
      then Ok(j.items[|j.items| - 1].fields["content"])
      else Err(NoContent)
  }

  // ===== the two user ids

  /** The cookie of the thread requests (create and list): the channel-and-timestamp id. */
  function ThreadCookie(ev: SlackBot.SlackEvent): (cookie: string)
    ensures Client.CookieUserId(cookie) == Some(SlackBot.OpengptsUserId(ev))
  {
    Client.CookieRoundTrip(SlackBot.OpengptsUserId(ev));
    Client.COOKIE_PREFIX + SlackBot.OpengptsUserId(ev)
  }

  /** The cookie of the stream request: the Slack user id. */
  function StreamCookie(ev: SlackBot.SlackEvent): (cookie: string)
    ensures Client.CookieUserId(cookie) == Some(ev.user)
  {
    Client.CookieRoundTrip(ev.user);
    Client.COOKIE_PREFIX + ev.user
  }

  /**
   * For a Slack user id without `-` the run is requested as a different
   * OpenGPTs user than the one that created or listed the thread.
   */
  lemma IdsDiffer(ev: SlackBot.SlackEvent)
    requires '-' !in ev.user
    ensures SlackBot.OpengptsUserId(ev) != ev.user
    ensures ThreadCookie(ev) != StreamCookie(ev)
  {
    var id := SlackBot.OpengptsUserId(ev);
    assert id[|ev.channel|] == '-';
    assert '-' in id;
    var c1 := ThreadCookie(ev);
    var c2 := StreamCookie(ev);
    assert Client.CookieUserId(c1) == Some(id);
  }
}
