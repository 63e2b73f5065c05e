/**
 * The message records of the OpenGPTs client and the conversion of an
 * outbound message into the parameters of a run request.
 */
module Schema {
  import opened Wrappers
  import opened JsonValues

  /** A function-call descriptor: both parts optional. */
  datatype FunctionCall = FunctionCall(name: Option<string>, arguments: Option<string>)

  /** A tool call: an optional function-call descriptor (the source's `function` field). */
  datatype ToolCall = ToolCall(call: Option<FunctionCall>)

  datatype AdditionalKwargs = AdditionalKwargs(
    name: Option<string>,
    functionCall: Option<FunctionCall>,
    toolCalls: Option<seq<ToolCall>>)

  /** A retrieved document fragment; both fields are required. */
  datatype PageContent = PageContent(pageContent: string, metadata: map<string, Json>)

  /** A message's content: a string, a list of document fragments, or a mapping. */
  datatype Content = Text(text: string) | Pages(pages: seq<PageContent>) | Mapping(entries: map<string, Json>)

  /**
   * One conversational turn. `kind` is the source's `type` field (a Dafny
   * keyword). `kind` and `content` are required; the other four are optional.
   */
  datatype Message = Message(
    kind: string,
    content: Content,
    id: Option<string>,
    name: Option<string>,
    example: Option<bool>,
    additionalKwargs: Option<AdditionalKwargs>)

  /** `Message(type=kind, content=content)`: every optional field takes its default. */
  function NewMessage(kind: string, content: Content): (m: Message)
    ensures m.kind == kind && m.content == content
    ensures m.id.None? && m.name.None? && m.example.None? && m.additionalKwargs.None?
  {
    Message(kind, content, None, None, None, None)
  }

  // ----- model_dump: a record becomes a dictionary holding every field, absent ones as null

  function DumpString(o: Option<string>): Json {
    match o
    case None => JNull
    case Some(s) => JString(s)
  }

  function DumpFunctionCall(f: FunctionCall): map<string, Json> {
    map["name" := DumpString(f.name), "arguments" := DumpString(f.arguments)]
  }

  function DumpToolCall(t: ToolCall): map<string, Json> {
    map["function" := match t.call case None => JNull case Some(f) => JObject(DumpFunctionCall(f))]
  }

  function DumpToolCalls(ts: seq<ToolCall>): (r: seq<Json>)
    ensures |r| == |ts|
  {
    if ts == [] then [] else [JObject(DumpToolCall(ts[0]))] + DumpToolCalls(ts[1..])
  }

  /** `AdditionalKwargs.model_dump()`: the three keys are always present. */
  function DumpAdditionalKwargs(k: AdditionalKwargs): (d: map<string, Json>)
    ensures d.Keys == {"name", "function_call", "tool_calls"}
  {
    map[
      "name" := DumpString(k.name),
      "function_call" := match k.functionCall case None => JNull case Some(f) => JObject(DumpFunctionCall(f)),
      "tool_calls" := match k.toolCalls case None => JNull case Some(ts) => JArray(DumpToolCalls(ts))
    ]
  }

  // ----- reading a dump back: the reference inverse of model_dump

  function LoadString(j: Json): Option<Option<string>> {
    match j
    case JNull => Some(None)
    case JString(s) => Some(Some(s))
    case _ => None
  }

  function LoadFunctionCall(d: map<string, Json>): Option<FunctionCall> {
    if "name" in d && "arguments" in d then
      match (LoadString(d["name"]), LoadString(d["arguments"]))
      case (Some(n), Some(a)) => Some(FunctionCall(n, a))
      case _ => None
    else None
  }

  function LoadOptFunctionCall(j: Json): Option<Option<FunctionCall>> {
    match j
    case JNull => Some(None)
    case JObject(d) => (match LoadFunctionCall(d) case None => None case Some(f) => Some(Some(f)))
    case _ => None
  }

  function LoadToolCalls(js: seq<Json>): Option<seq<ToolCall>> {
    if js == [] then Some([])
    else match (js[0], LoadToolCalls(js[1..]))
      case (JObject(d), Some(rest)) =>
        if "function" in d then
          match LoadOptFunctionCall(d["function"])
          case None => None
          case Some(f) => Some([ToolCall(f)] + rest)
        else None
      case _ => None
  }

  function LoadAdditionalKwargs(d: map<string, Json>): Option<AdditionalKwargs> {
    if "name" in d && "function_call" in d && "tool_calls" in d then
      var calls := match d["tool_calls"]
        case JNull => Some(None)
        case JArray(js) => (match LoadToolCalls(js) case None => None case Some(ts) => Some(Some(ts)))
        case _ => None;
      match (LoadString(d["name"]), LoadOptFunctionCall(d["function_call"]), calls)
      case (Some(n), Some(f), Some(c)) => Some(AdditionalKwargs(n, f, c))
      case _ => None
    else None
  }

  lemma {:induction false} ToolCallsRoundTrip(ts: seq<ToolCall>)
    ensures LoadToolCalls(DumpToolCalls(ts)) == Some(ts)
  {
    if ts != [] {
      ToolCallsRoundTrip(ts[1..]);
      assert DumpToolCalls(ts)[1..] == DumpToolCalls(ts[1..]);
      assert [ts[0]] + ts[1..] == ts;
    }
  }

  /** Nothing is lost by `model_dump`: the dump reads back as the same record. */
  lemma KwargsRoundTrip(k: AdditionalKwargs)
    ensures LoadAdditionalKwargs(DumpAdditionalKwargs(k)) == Some(k)
  {
    if k.toolCalls.Some? { ToolCallsRoundTrip(k.toolCalls.value); }
  }

  /** `model_dump` is injective. */
  lemma DumpInjective(k1: AdditionalKwargs, k2: AdditionalKwargs)
    ensures DumpAdditionalKwargs(k1) == DumpAdditionalKwargs(k2) <==> k1 == k2
  {
    KwargsRoundTrip(k1);
    KwargsRoundTrip(k2);
  }

  // ----- to_request_params

  /** The values the request dictionary holds. */
  datatype ParamValue = PString(s: string) | PContent(c: Content) | PObject(fields: map<string, Json>) | PBool(b: bool)

  /** `self.example or False`: `None` and `False` give `False`. */
  function ExampleFlag(example: Option<bool>): (b: bool)
    ensures b <==> example == Some(true)
  {
    match example
    case None => false
    case Some(e) => e
  }

  /**
   * The `additional_kwargs` entry: `{}` when absent, otherwise the dump,
   * which is never empty, so the two cases stay apart.
   */
  function KwargsParam(o: Option<AdditionalKwargs>): (d: map<string, Json>)
    ensures o.None? <==> d == map[]
    ensures o.Some? ==> d == DumpAdditionalKwargs(o.value)
    ensures o.Some? ==> LoadAdditionalKwargs(d) == Some(o.value)
  {
    match o
    case None => map[]
    case Some(k) => (KwargsRoundTrip(k); assert "name" in DumpAdditionalKwargs(k); DumpAdditionalKwargs(k))
  }

  /** `message.to_request_params()` */
  function ToRequestParams(m: Message): (p: map<string, ParamValue>)
    ensures p.Keys == {"type", "content", "additional_kwargs", "example"}
    ensures p["type"] == PString(m.kind) && p["content"] == PContent(m.content)
    ensures p["additional_kwargs"].PObject?
    ensures m.additionalKwargs.None? <==> p["additional_kwargs"].fields == map[]
    ensures m.additionalKwargs.Some? ==>
              p["additional_kwargs"].fields == DumpAdditionalKwargs(m.additionalKwargs.value)
    ensures m.additionalKwargs.Some? ==>
              LoadAdditionalKwargs(p["additional_kwargs"].fields) == Some(m.additionalKwargs.value)
    ensures p["example"] == PBool(m.example == Some(true))
  {
    map[
      "type" := PString(m.kind),
      "content" := PContent(m.content),
      "additional_kwargs" := PObject(KwargsParam(m.additionalKwargs)),
      "example" := PBool(ExampleFlag(m.example))
    ]
  }

  /**
   * Two messages give the same request parameters exactly when they agree on
   * type, content and additional_kwargs and on `example or False`: `id` and
   * `name` are never sent, and an absent `example` is sent as `False`.
   */
  lemma RequestParamsAgree(m1: Message, m2: Message)
    ensures ToRequestParams(m1) == ToRequestParams(m2) <==>
              && m1.kind == m2.kind
              && m1.content == m2.content
              && m1.additionalKwargs == m2.additionalKwargs
              && ExampleFlag(m1.example) == ExampleFlag(m2.example)
  {
    var p1, p2 := ToRequestParams(m1), ToRequestParams(m2);
    if p1 == p2 {
      assert p1["type"] == p2["type"] && p1["content"] == p2["content"];
      assert p1["example"] == p2["example"];
      assert p1["additional_kwargs"] == p2["additional_kwargs"];
      match (m1.additionalKwargs, m2.additionalKwargs)
      case (Some(k1), Some(k2)) => DumpInjective(k1, k2);
      case _ =>
    }
  }

  /** `id` and `name` never reach the request. */
  lemma IdAndNameNotSent(m: Message, id: Option<string>, name: Option<string>)
    ensures ToRequestParams(m.(id := id, name := name)) == ToRequestParams(m)
  {
    RequestParamsAgree(m.(id := id, name := name), m);
  }
}
