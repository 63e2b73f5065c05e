/**
 * The Slack bot's mention handler: the mention stripper, the OpenGPTs user
 * id derived from a Slack event, the thread the reply goes to, the choice
 * between creating and reusing an OpenGPTs thread, and the reply text.
 */
module SlackBot {
  import opened Wrappers
  import opened PyText
  import opened Schema
  import Client

  // ===== remove_mention: re.sub(r"^<.*>", "", message)

  /** The index of the last occurrence of `c` in `s`. */
  function LastIndexOf(s: string, c: char): (r: Option<nat>)
    ensures r.None? <==> c !in s
    ensures r.Some? ==> r.value < |s| && s[r.value] == c && c !in s[r.value + 1..]
    decreases |s|
  {
    if s == [] then None
    else if s[|s| - 1] == c then Some(|s| - 1)
    else
      var r := LastIndexOf(s[..|s| - 1], c);
      assert r.Some? ==> s[r.value + 1..] == s[..|s| - 1][r.value + 1..] + [s[|s| - 1]];
      r
  }

  /** The text up to the first newline: what `.` can reach from the start. */
  function FirstLine(s: string): (r: string)
    ensures |r| <= |s| && r == s[..|r|] && '\n' !in r
    ensures |r| == |s| || s[|r|] == '\n'
  {
    match IndexOf(s, '\n')
    case None => s
    case Some(k) => s[..k]
  }

  /**
   * A match of `^<.*>` of length `n`: it starts the text with `<`, ends with
   * `>` and crosses no newline.
   */
  predicate MentionMatch(s: string, n: nat) {
    2 <= n <= |s| && s[0] == '<' && s[n - 1] == '>' && '\n' !in s[..n]
  }

  /**
   * `remove_mention`: the greedy `.*` runs to the last `>` before the first
   * newline, and `^` anchors the only possible match at the start.
   */
  function RemoveMention(message: string): (r: string)
    ensures |r| <= |message| && r == message[|message| - |r|..]
    ensures message == [] || message[0] != '<' ==> r == message
  {
    if message != [] && message[0] == '<' then
      match LastIndexOf(FirstLine(message), '>')
      case None => message
      case Some(j) => message[j + 1..]
    else message
  }

  /** The text is unchanged exactly when the pattern does not match. */
  lemma RemoveMentionUnchanged(s: string)
    ensures RemoveMention(s) == s <==> forall n: nat :: !MentionMatch(s, n)
  {
    if s != [] && s[0] == '<' {
      var line := FirstLine(s);
      match LastIndexOf(line, '>')
      case None =>
      case Some(j) =>
        assert j != 0;
        assert MentionMatch(s, j + 1) by {
          assert s[..j + 1] == line[..j + 1];
        }
    }
  }

  /** A match removes the longest matching prefix and nothing else. */
  lemma RemoveMentionLongest(s: string, n: nat)
    requires MentionMatch(s, n)
    ensures exists m: nat :: MentionMatch(s, m) && n <= m && RemoveMention(s) == s[m..]
  {
    var line := FirstLine(s);
    assert n <= |line|;
    assert line[n - 1] == '>';
    var j := LastIndexOf(line, '>').value;
    assert n - 1 <= j;
    assert s[..j + 1] == line[..j + 1];
    assert MentionMatch(s, j + 1);
  }

  /** The first line is everything before the first newline. */
  lemma FirstLineOf(a: string, b: string)
    requires '\n' !in a && (b == [] || b[0] == '\n')
    ensures FirstLine(a + b) == a
  {
    if b == [] {
      assert a + b == a;
    } else {
      assert a + b == a + ['\n'] + b[1..];
      IndexOfAfter(a, '\n', b[1..]);
      assert (a + b)[..|a|] == a;
    }
  }

  /** After a removal the first line of what remains holds no `>`. */
  lemma RemainderFirstLine(s: string)
    requires RemoveMention(s) != s
    ensures '>' !in FirstLine(RemoveMention(s))
  {
    assert s != [] && s[0] == '<';
    var line := FirstLine(s);
    var found := LastIndexOf(line, '>');
    assert found.Some?;
    var j := found.value;
    assert RemoveMention(s) == s[j + 1..];
    RestOfLine(s, line, j);
  }

  /** Dropping part of the first line leaves the rest of that line as the first line. */
  lemma RestOfLine(s: string, line: string, j: nat)
    requires |line| <= |s| && line == s[..|line|] && '\n' !in line
    requires |line| == |s| || s[|line|] == '\n'
    requires j < |line|
    ensures FirstLine(s[j + 1..]) == line[j + 1..]
  {
    assert s[j + 1..] == line[j + 1..] + s[|line|..];
    FirstLineOf(line[j + 1..], s[|line|..]);
  }

  /** Removing the mention a second time changes nothing. */
  lemma RemoveMentionIdempotent(s: string)
    ensures RemoveMention(RemoveMention(s)) == RemoveMention(s)
  {
    var r := RemoveMention(s);
    if r != s {
      RemainderFirstLine(s);
      assert LastIndexOf(FirstLine(r), '>').None?;
    }
  }

  // ===== the Slack event and what is derived from it

  /** The fields of an `app_mention` event that the handler reads. */
  datatype SlackEvent = SlackEvent(
    text: string,
    threadTs: Option<string>,
    ts: string,
    channel: string,
    user: string)

  /**
   * The timestamp that names the event's Slack thread, `thread_ts or
   * event_ts`: part of the user id, and the thread the reply is posted into.
   */
  function ThreadKey(ev: SlackEvent): (k: string)
    ensures ev.threadTs.None? || ev.threadTs.value == "" ==> k == ev.ts
    ensures ev.threadTs.Some? && ev.threadTs.value != "" ==> k == ev.threadTs.value
  {
    OrElse(ev.threadTs, ev.ts)
  }

  /** The OpenGPTs user id: the channel and the thread key joined by `-`. */
  function OpengptsUserId(ev: SlackEvent): (id: string)
    ensures |id| == |ev.channel| + 1 + |ThreadKey(ev)|
    ensures id[..|ev.channel|] == ev.channel && id[|ev.channel|] == '-'
    ensures id[|ev.channel| + 1..] == ThreadKey(ev)
  {
    ev.channel + "-" + ThreadKey(ev)
  }

  /**
   * A reply inside a thread maps to the same OpenGPTs user as the mention
   * that started the thread, and is answered in that same thread.
   */
  lemma ThreadSharesId(root: SlackEvent, reply: SlackEvent)
    requires root.threadTs.None? && root.ts != ""
    requires reply.channel == root.channel && reply.threadTs == Some(root.ts)
    ensures OpengptsUserId(reply) == OpengptsUserId(root)
    ensures ThreadKey(reply) == ThreadKey(root) == root.ts
  {
  }

  /** With hyphen-free channel ids the user id determines the channel and the thread key. */
  lemma UserIdDeterminesThread(e1: SlackEvent, e2: SlackEvent)
    requires '-' !in e1.channel && '-' !in e2.channel
    requires OpengptsUserId(e1) == OpengptsUserId(e2)
    ensures e1.channel == e2.channel && ThreadKey(e1) == ThreadKey(e2)
  {
    var id := OpengptsUserId(e1);
    SplitOnceOf(e1.channel, '-', ThreadKey(e1));
    SplitOnceOf(e2.channel, '-', ThreadKey(e2));
    assert id == e1.channel + ['-'] + ThreadKey(e1);
    assert id == e2.channel + ['-'] + ThreadKey(e2);
  }

  /** A hyphen in a channel id lets two different threads share a user id. */
  lemma HyphenatedChannelsCollide()
    ensures var e1 := SlackEvent("", None, "c", "a-b", "u");
      var e2 := SlackEvent("", None, "b-c", "a", "u");
      OpengptsUserId(e1) == OpengptsUserId(e2) && e1.channel != e2.channel
  {
    var e1 := SlackEvent("", None, "c", "a-b", "u");
    var e2 := SlackEvent("", None, "b-c", "a", "u");
    assert OpengptsUserId(e1) == "a-b-c";
    assert OpengptsUserId(e2) == "a-b-c";
  }

  /** The client built by the handler keeps the derived id rather than generating one. */
  lemma ClientKeepsUserId(url: string, ev: SlackEvent, freshId: string)
    requires Client.IsUuidText(freshId)
    ensures Client.NewClient(url, Some(OpengptsUserId(ev)), freshId).userId == OpengptsUserId(ev)
  {
    assert |OpengptsUserId(ev)| > 0 by {
      assert OpengptsUserId(ev)[|ev.channel|] == '-';
    }
  }

  // ===== which OpenGPTs thread the run goes to

  /** `create_thread(name=...)` for a new conversation, or the first listed thread. */
  datatype ThreadChoice = CreateThread(name: string) | FirstListed

  /** `thread_ts is None` decides between creating a thread and reusing one. */
  function ChooseThread(ev: SlackEvent): (c: ThreadChoice)
    ensures c.CreateThread? <==> ev.threadTs.None?
    ensures c.CreateThread? ==> c.name == RemoveMention(ev.text)
  {
    if ev.threadTs.None? then CreateThread(RemoveMention(ev.text)) else FirstListed
  }

  /** Why the handler raises before replying. */
  datatype HandlerError = NoThreads | EmptyReply

  /** `get_thread_list()[0]`: an empty listing raises `IndexError`. */
  function FirstThread(listing: seq<string>): (r: Result<string, HandlerError>)
    ensures r.Ok? <==> listing != []
    ensures r.Ok? ==> r.value == listing[0]
  {
    if listing == [] then Err(NoThreads) else Ok(listing[0])
  }

  /**
   * A thread timestamp that is the empty string is treated as a thread by
   * the thread choice but not by the id, which falls back to the event's own
   * timestamp.
   */
  lemma EmptyThreadTsDisagrees(ev: SlackEvent)
    requires ev.threadTs == Some("")
    ensures ChooseThread(ev) == FirstListed
    ensures ThreadKey(ev) == ev.ts
  {
  }

  /**
   * The one message the run is given, `Message(type="human", content=input_message)`,
   * and what it is sent as: the stripped text, no additional kwargs, not an example.
   */
  function Question(ev: SlackEvent): (m: Message)
    ensures ToRequestParams(m) == map[
              "type" := PString("human"),
              "content" := PContent(Text(RemoveMention(ev.text))),
              "additional_kwargs" := PObject(map[]),
              "example" := PBool(false)]
  {
    NewMessage("human", Text(RemoveMention(ev.text)))
  }

  // ===== the reply

  /** `messages[-1].content`: the last message's content; an empty list raises `IndexError`. */
  function ReplyContent(messages: seq<Message>): (r: Result<Content, HandlerError>)
    ensures r.Ok? <==> messages != []
    ensures r.Ok? ==> r.value == messages[|messages| - 1].content
  {
    if messages == [] then Err(EmptyReply) else Ok(messages[|messages| - 1].content)
  }

  /** The reply's markdown: the asking user's mention, a newline and a space, then the text. */
  function ReplyText(user: string, responseText: string): (t: string)
    ensures |t| == |user| + 5 + |responseText|
    ensures t[..|user| + 3] == "<@" + user + ">"
    ensures t[|user| + 3..|user| + 5] == "\n " && t[|user| + 5..] == responseText
  {
    "<@" + user + ">\n " + responseText
  }

  /**
   * The mention that starts a reply is exactly what `remove_mention` strips,
   * as long as the user id holds no newline.
   */
  lemma ReplyMentionRemoved(user: string, responseText: string)
    requires '\n' !in user
    ensures RemoveMention(ReplyText(user, responseText)) == "\n " + responseText
  {
    var t := ReplyText(user, responseText);
    var n := |user| + 3;
    assert t == ("<@" + user + ">") + ("\n " + responseText);
    assert t[n] == '\n';
    assert '\n' !in t[..n] by {
      assert t[..n] == "<@" + user + ">";
    }
    assert MentionMatch(t, n);
    RemoveMentionLongest(t, n);
    var m: nat :| MentionMatch(t, m) && n <= m && RemoveMention(t) == t[m..];
  }
}
