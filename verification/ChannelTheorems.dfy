/** What the channels read: of an event with one text in it, that text. */
module ChannelTheorems {
  import opened Options
  import opened Json
  import opened MergeKeys
  import opened Channels
  import opened MergeTheorems

  function OneChoice(index: Json, rest: Fields): Fields {
    map["choices" := Arr([Obj(rest["index" := index])])]
  }

  lemma OneObject(m: Fields)
    ensures ObjectsIn([Obj(m)]) == [m]
  {
    assert AllObjects([Obj(m)]);
  }

  lemma OneText(ch: Fields, part: Part)
    requires ValidPart(part)
    ensures ChoicesText([ch], RawIndex(ch), part) == PartText(ch, part)
  {
    assert [ch][..0] == [];
  }

  lemma OneChoiceText(index: Json, rest: Fields, part: Part)
    requires ValidPart(part) && !index.Null?
    ensures Text(OneChoice(index, rest), Choice(index, part)) == PartText(rest["index" := index], part)
  {
    var ch := rest["index" := index];
    OneObject(ch);
    OneText(ch, part);
    OneChoiceRead(index, rest);
  }

  lemma OneChoiceRead(index: Json, rest: Fields)
    ensures RouteOf(OneChoice(index, rest)).OpenAIRoute?
    ensures ChoicesOf(OneChoice(index, rest)) == ObjectsIn([Obj(rest["index" := index])])
  {
  }

  /** The texts of a delta and of a legacy completion. */
  lemma ReadsTexts(index: Json, s: string)
    requires !index.Null?
    ensures Text(OneChoice(index, map["delta" := Obj(map["content" := Str(s)])]), Choice(index, DeltaText("content"))) == s
    ensures Text(OneChoice(index, map["delta" := Obj(map["reasoning_content" := Str(s)])]),
                 Choice(index, DeltaText("reasoning_content"))) == s
    ensures Text(OneChoice(index, map["delta" := Obj(map["reasoning" := Str(s)])]), Choice(index, DeltaText("reasoning"))) == s
    ensures Text(OneChoice(index, map["text" := Str(s)]), Choice(index, LegacyText)) == s
  {
    OneChoiceText(index, map["delta" := Obj(map["content" := Str(s)])], DeltaText("content"));
    OneChoiceText(index, map["delta" := Obj(map["reasoning_content" := Str(s)])], DeltaText("reasoning_content"));
    OneChoiceText(index, map["delta" := Obj(map["reasoning" := Str(s)])], DeltaText("reasoning"));
    OneChoiceText(index, map["text" := Str(s)], LegacyText);
  }

  function ArgumentsObject(s: string): Json {
    Obj(map["arguments" := Str(s)])
  }

  /** The arguments of a function call. */
  lemma ReadsFunctionCall(index: Json, s: string)
    requires !index.Null?
    ensures Text(OneChoice(index, map["delta" := Obj(map["function_call" := ArgumentsObject(s)])]), Choice(index, CallArgs)) == s
  {
    OneChoiceText(index, map["delta" := Obj(map["function_call" := ArgumentsObject(s)])], CallArgs);
  }

  function OneTool(tool: Json, s: string): Json {
    Obj(map["index" := tool, "function" := ArgumentsObject(s)])
  }

  /** And those of a tool call. */
  lemma ReadsToolCall(index: Json, tool: Json, s: string)
    requires !index.Null? && !tool.Null?
    ensures Text(OneChoice(index, map["delta" := Obj(map["tool_calls" := Arr([OneTool(tool, s)])])]),
                 Choice(index, ToolArgs(tool))) == s
  {
    OneListText(tool, s);
    OneDeltaText(index, map["tool_calls" := Arr([OneTool(tool, s)])], tool);
  }

  lemma OneDeltaText(index: Json, delta: Fields, tool: Json)
    requires !index.Null?
    ensures Text(OneChoice(index, map["delta" := Obj(delta)]), Choice(index, ToolArgs(tool)))
         == ListArgsText(Get(delta, "tool_calls"), tool)
  {
    OneChoiceText(index, map["delta" := Obj(delta)], ToolArgs(tool));
  }

  lemma OneToolSays(tool: Json, s: string)
    requires !tool.Null?
    ensures CallText(OneTool(tool, s).fields, tool) == s
  {
  }

  lemma OneItemText(call: Fields, tool: Json)
    ensures ListArgsText(Some(Arr([Obj(call)])), tool) == CallText(call, tool)
  {
    OneObject(call);
    OneCallText(call, tool);
  }

  lemma OneListText(tool: Json, s: string)
    requires !tool.Null?
    ensures ListArgsText(Some(Arr([OneTool(tool, s)])), tool) == s
  {
    OneToolSays(tool, s);
    OneItemText(OneTool(tool, s).fields, tool);
  }

  lemma OneCallText(call: Fields, tool: Json)
    ensures ToolArgsText([call], tool) == CallText(call, tool)
  {
    assert [call][..0] == [];
  }

  function OneBlock(index: Json, deltaType: string, field: string, s: string): Fields {
    map["type" := Str("content_block_delta"), "index" := index, "delta" := Obj(map["type" := Str(deltaType), field := Str(s)])]
  }

  /** The four deltas of Anthropic's blocks. */
  lemma ReadsBlocks(index: Json, s: string)
    requires !index.Null?
    ensures Text(OneBlock(index, "text_delta", "text", s), Block(index, "text_delta")) == s
    ensures Text(OneBlock(index, "thinking_delta", "thinking", s), Block(index, "thinking_delta")) == s
    ensures Text(OneBlock(index, "input_json_delta", "partial_json", s), Block(index, "input_json_delta")) == s
    ensures Text(OneBlock(index, "signature_delta", "signature", s), Block(index, "signature_delta")) == s
  {
  }

  /** The deltas of a response. */
  lemma ReadsItems(obj: Fields, s: string)
    requires RouteOf(obj).ResponsesRoute? && Get(obj, "delta") == Some(Str(s))
    ensures Text(obj, Item(TypeOf(obj), Get(obj, "item_id"), Get(obj, "output_index"), Get(obj, "content_index"),
                           Get(obj, "summary_index"))) == s
  {
  }

  /** And of an event of another choice, block or item a channel reads nothing. */
  lemma ReadsNoOther(obj: Fields, c: Channel)
    requires ValidChannel(c) && Text(obj, c) != ""
    ensures c.Item? ==>
      && Get(obj, "type") == Some(Str(c.typ))
      && Get(obj, "item_id") == c.itemId && Get(obj, "output_index") == c.output
      && Get(obj, "content_index") == c.content && Get(obj, "summary_index") == c.summary
    ensures c.Block? ==>
      && Get(obj, "type") == Some(Str("content_block_delta")) && RawIndex(obj) == c.index
      && Get(FieldsOf(Get(obj, "delta")), "type") == Some(Str(c.deltaType))
    ensures c.Choice? ==>
      var ms := ChoicesOf(obj); exists i :: 0 <= i < |ms| && RawIndex(ms[i]) == c.index
  {
    if c.Choice? && forall i :: 0 <= i < |ChoicesOf(obj)| ==> RawIndex(ChoicesOf(obj)[i]) != c.index {
      AbsentChoiceText(ChoicesOf(obj), c.index, c.part);
    }
  }
}
