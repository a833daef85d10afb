/** The merge key of an SSE event: sse_log.go's sseMergeable and the key builders.

    The code concatenates the pieces of a key into one string, every piece being
    a fixed word or a JSON text. JSON texts delimit themselves, so the model keeps
    the pieces apart. */
module MergeKeys {
  import opened Options
  import opened Json

  /** What openaiChoiceFields reports of one choice. */
  datatype ChoiceShape =
    | TextShape
    | DeltaShape(content: bool, reasoningContent: bool, reasoning: bool, call: bool, tools: Option<seq<Json>>)

  datatype ChoiceKey = ChoiceKey(index: Json, shape: ChoiceShape)

  datatype Key =
    | OpenAI(choices: seq<ChoiceKey>)
    | Anthropic(index: Json, deltaType: string)
    | Responses(typ: string, parts: seq<(string, Json)>)

  /** Which of the three protocols sseMergeable's switch picks for an object. */
  datatype Route = AnthropicRoute | ResponsesRoute | OpenAIRoute | NoRoute

  function TypeOf(obj: Fields): string {
    AsString(Get(obj, "type")).GetOr("")
  }

  function RouteOf(obj: Fields): Route {
    var typ := TypeOf(obj);
    if typ == "content_block_delta" then AnthropicRoute
    else if HasPrefix(typ, "response.") && HasSuffix(typ, ".delta") then ResponsesRoute
    else if "choices" in obj then OpenAIRoute
    else NoRoute
  }

  function RawIndex(m: Fields): Json {
    if Blank(Get(m, "index")) then Scalar("0") else m["index"]
  }

  // ----- OpenAI keys

  predicate AllObjects(items: seq<Json>) {
    forall i :: 0 <= i < |items| ==> items[i].Obj?
  }

  function Objects(items: seq<Json>): (ms: seq<Fields>)
    requires AllObjects(items)
    ensures |ms| == |items|
    ensures forall i :: 0 <= i < |ms| ==> ms[i] == items[i].fields
  {
    seq(|items|, i requires 0 <= i < |items| => items[i].fields)
  }

  function ToItems(ms: seq<Fields>): (items: seq<Json>)
    ensures |items| == |ms| && AllObjects(items)
    ensures forall i :: 0 <= i < |ms| ==> items[i] == Obj(ms[i])
  {
    seq(|ms|, i requires 0 <= i < |ms| => Obj(ms[i]))
  }

  /** The distinct indexes of a list of tool calls, in order of first occurrence. */
  function FirstIndexes(ms: seq<Fields>): seq<Json> {
    if ms == [] then []
    else
      var before := FirstIndexes(ms[..|ms| - 1]);
      var idx := RawIndex(ms[|ms| - 1]);
      if idx in before then before else before + [idx]
  }

  function ToolCallIndexes(raw: Json): Option<seq<Json>> {
    match AsArray(Some(raw))
    case None => None
    case Some(arr) => if arr == [] || !AllObjects(arr) then None else Some(FirstIndexes(Objects(arr)))
  }

  predicate FunctionCallHasArgs(raw: Json) {
    raw.Obj? && IsString(Get(raw.fields, "arguments"))
  }

  function DeltaShapeOf(d: Fields): Option<ChoiceShape> {
    var content := IsString(Get(d, "content"));
    var reasoningContent := IsString(Get(d, "reasoning_content"));
    var reasoning := IsString(Get(d, "reasoning"));
    var call := "function_call" in d && FunctionCallHasArgs(d["function_call"]);
    if "tool_calls" in d then
      match ToolCallIndexes(d["tool_calls"])
      case None => None
      case Some(tools) => Some(DeltaShape(content, reasoningContent, reasoning, call, Some(tools)))
    else if content || reasoningContent || reasoning || call then
      Some(DeltaShape(content, reasoningContent, reasoning, call, None))
    else None
  }

  function ChoiceShapeOf(ch: Fields): Option<ChoiceShape> {
    if "delta" in ch then
      match AsObject(Some(ch["delta"]))
      case None => None
      case Some(d) => DeltaShapeOf(d)
    else if IsString(Get(ch, "text")) then Some(TextShape)
    else None
  }

  predicate Keyed(item: Json) {
    item.Obj? && ChoiceShapeOf(item.fields).Some?
  }

  function ChoiceKeyOf(item: Json): ChoiceKey
    requires Keyed(item)
  {
    ChoiceKey(RawIndex(item.fields), ChoiceShapeOf(item.fields).value)
  }

  function OpenAIKey(obj: Fields): Option<Key> {
    match AsArray(Get(obj, "choices"))
    case None => None
    case Some(cs) =>
      if cs == [] || exists i :: 0 <= i < |cs| && !Keyed(cs[i]) then None
      else Some(OpenAI(seq(|cs|, i requires 0 <= i < |cs| => ChoiceKeyOf(cs[i]))))
  }

  // ----- Anthropic and Responses keys

  /** anthropicDeltaField. */
  function AnthropicField(deltaType: string): Option<string> {
    if deltaType == "text_delta" then Some("text")
    else if deltaType == "thinking_delta" then Some("thinking")
    else if deltaType == "input_json_delta" then Some("partial_json")
    else if deltaType == "signature_delta" then Some("signature")
    else None
  }

  function AnthropicKey(obj: Fields): Option<Key> {
    match AsObject(Get(obj, "delta"))
    case None => None
    case Some(delta) =>
      var deltaType := TypeOf(delta);
      var field := AnthropicField(deltaType);
      if field.None? || !IsString(Get(delta, field.value)) then None
      else Some(Anthropic(RawIndex(obj), deltaType))
  }

  const RESPONSES_TEXT_DELTA: set<string> := {
    "response.output_text.delta",
    "response.refusal.delta",
    "response.function_call_arguments.delta",
    "response.reasoning_text.delta",
    "response.reasoning.delta",
    "response.reasoning_summary_text.delta",
    "response.mcp_call.arguments.delta",
    "response.audio.transcript.delta",
    "response.code_interpreter_call_code.delta",
    "response.custom_tool_call_input.delta"
  }

  function KeyPart(obj: Fields, field: string): seq<(string, Json)> {
    if field in obj then [(field, obj[field])] else []
  }

  function ItemParts(obj: Fields): seq<(string, Json)> {
    KeyPart(obj, "item_id") + KeyPart(obj, "output_index")
    + KeyPart(obj, "content_index") + KeyPart(obj, "summary_index")
  }

  function ResponsesKey(obj: Fields): Option<Key> {
    if TypeOf(obj) !in RESPONSES_TEXT_DELTA || !IsString(Get(obj, "delta")) then None
    else Some(Responses(TypeOf(obj), ItemParts(obj)))
  }

  /** sseMergeable above the JSON decoding: the key, or None if the event passes through. */
  function MergeKey(obj: Fields): Option<Key> {
    match RouteOf(obj)
    case AnthropicRoute => AnthropicKey(obj)
    case ResponsesRoute => ResponsesKey(obj)
    case OpenAIRoute => OpenAIKey(obj)
    case NoRoute => None
  }
}
