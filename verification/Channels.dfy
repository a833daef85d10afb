/** The text channels a reader of a transcript follows, and the proof that a
    merge appends the source's text to every channel. */
module Channels {
  import opened Sequences
  import opened Options
  import opened Json
  import opened MergeKeys
  import opened Merge

  datatype Part =
    | LegacyText
    | DeltaText(name: string)
    | CallArgs
    | ToolArgs(tool: Json)

  datatype Channel =
    | Choice(index: Json, part: Part)
    | Block(index: Json, deltaType: string)
    | Item(typ: string, itemId: Option<Json>, output: Option<Json>, content: Option<Json>, summary: Option<Json>)

  predicate ValidPart(part: Part) {
    part.DeltaText? ==> part.name in {"content", "reasoning_content", "reasoning"}
  }

  predicate ValidChannel(c: Channel) {
    c.Choice? ==> ValidPart(c.part)
  }

  // ----- the text of one event

  function ToolArgsText(ms: seq<Fields>, tool: Json): string {
    if ms == [] then ""
    else
      ToolArgsText(ms[..|ms| - 1], tool) + CallText(ms[|ms| - 1], tool)
  }

  function ArgumentsOf(call: Fields): string {
    StrOf(Get(FieldsOf(Get(call, "function")), "arguments"))
  }

  function CallText(call: Fields, tool: Json): string {
    if RawIndex(call) == tool then ArgumentsOf(call) else ""
  }

  /** The objects of a list, the rest dropped. */
  function ObjectsIn(items: seq<Json>): (ms: seq<Fields>)
    ensures AllObjects(items) ==> ms == Objects(items)
  {
    if items == [] then []
    else ObjectsIn(items[..|items| - 1]) + (if items[|items| - 1].Obj? then [items[|items| - 1].fields] else [])
  }

  function ListArgsText(list: Option<Json>, tool: Json): string {
    ToolArgsText(ObjectsIn(AsArray(list).GetOr([])), tool)
  }

  function DeltaPartText(d: Fields, part: Part): string
    requires ValidPart(part)
  {
    match part
    case LegacyText => ""
    case DeltaText(name) => StrOf(Get(d, name))
    case CallArgs => StrOf(Get(FieldsOf(Get(d, "function_call")), "arguments"))
    case ToolArgs(tool) => ListArgsText(Get(d, "tool_calls"), tool)
  }

  function PartText(ch: Fields, part: Part): string
    requires ValidPart(part)
  {
    if part.LegacyText? then StrOf(Get(ch, "text")) else DeltaPartText(FieldsOf(Get(ch, "delta")), part)
  }

  function ChoiceText(ch: Fields, index: Json, part: Part): string
    requires ValidPart(part)
  {
    if RawIndex(ch) == index then PartText(ch, part) else ""
  }

  function ChoicesText(ms: seq<Fields>, index: Json, part: Part): string
    requires ValidPart(part)
  {
    if ms == [] then "" else ChoicesText(ms[..|ms| - 1], index, part) + ChoiceText(ms[|ms| - 1], index, part)
  }

  function ChoicesOf(obj: Fields): seq<Fields> {
    ObjectsIn(AsArray(Get(obj, "choices")).GetOr([]))
  }

  /** What a delta of an Anthropic event adds to a block, by the delta's type. */
  function BlockPart(delta: Fields, deltaType: string): string {
    if Get(delta, "type") != Some(Str(deltaType)) then ""
    else if deltaType == "text_delta" then StrOf(Get(delta, "text"))
    else if deltaType == "thinking_delta" then StrOf(Get(delta, "thinking"))
    else if deltaType == "input_json_delta" then StrOf(Get(delta, "partial_json"))
    else if deltaType == "signature_delta" then StrOf(Get(delta, "signature"))
    else ""
  }

  function BlockText(obj: Fields, index: Json, deltaType: string): string {
    if RawIndex(obj) == index then BlockPart(FieldsOf(Get(obj, "delta")), deltaType) else ""
  }

  /** The event belongs to this part of a response. */
  predicate OfItem(obj: Fields, c: Channel)
    requires c.Item?
  {
    && Get(obj, "type") == Some(Str(c.typ))
    && Get(obj, "item_id") == c.itemId && Get(obj, "output_index") == c.output
    && Get(obj, "content_index") == c.content && Get(obj, "summary_index") == c.summary
  }

  /** The text one decoded event adds to a channel, read by the event's own protocol. */
  function Text(obj: Fields, c: Channel): string
    requires ValidChannel(c)
  {
    match (RouteOf(obj), c)
    case (OpenAIRoute, Choice(index, part)) => ChoicesText(ChoicesOf(obj), index, part)
    case (AnthropicRoute, Block(index, deltaType)) => BlockText(obj, index, deltaType)
    case (ResponsesRoute, Item(_, _, _, _, _)) => if OfItem(obj, c) then StrOf(Get(obj, "delta")) else ""
    case _ => ""
  }

  // ----- tool calls keep every channel

  lemma ToolArgsTextAppend(ms: seq<Fields>, m: Fields, tool: Json)
    ensures ToolArgsText(ms + [m], tool) == ToolArgsText(ms, tool) + CallText(m, tool)
  {
    assert (ms + [m])[..|ms|] == ms;
  }

  lemma ToolCallMergedText(dst: Fields, src: Fields)
    ensures RawIndex(ToolCallMerged(dst, src)) == RawIndex(dst)
    ensures ArgumentsOf(ToolCallMerged(dst, src)) == ArgumentsOf(dst) + ArgumentsOf(src)
  {
  }

  /** Appending to the last call with an index appends to the index's channel. */
  lemma {:induction false} ToolUpdateText(ms: seq<Fields>, p: nat, m: Fields, tool: Json)
    requires p < |ms| && RawIndex(ms[p]) == RawIndex(m)
    requires forall j :: p < j < |ms| ==> RawIndex(ms[j]) != RawIndex(m)
    ensures ToolArgsText(ms[p := ToolCallMerged(ms[p], m)], tool) == ToolArgsText(ms, tool) + CallText(m, tool)
  {
    var last := |ms| - 1;
    var before, call := ms[..last], ToolCallMerged(ms[p], m);
    assert ms == before + [ms[last]];
    if p == last {
      ToolUpdateLast(before, ms[last], m, tool);
      assert ms[p := call] == before + [call];
    } else {
      ToolUpdateText(before, p, m, tool);
      ToolUpdatePast(before, before[p := call], ms[last], m, tool);
      assert ms[p := call] == before[p := call] + [ms[last]];
    }
  }

  lemma ToolUpdatePast(before: seq<Fields>, after: seq<Fields>, call: Fields, m: Fields, tool: Json)
    requires RawIndex(call) != RawIndex(m)
    requires ToolArgsText(after, tool) == ToolArgsText(before, tool) + CallText(m, tool)
    ensures ToolArgsText(after + [call], tool) == ToolArgsText(before + [call], tool) + CallText(m, tool)
  {
    ToolArgsTextAppend(before, call, tool);
    ToolArgsTextAppend(after, call, tool);
  }

  lemma ToolUpdateLast(before: seq<Fields>, call: Fields, m: Fields, tool: Json)
    requires RawIndex(call) == RawIndex(m)
    ensures ToolArgsText(before + [ToolCallMerged(call, m)], tool)
         == ToolArgsText(before + [call], tool) + CallText(m, tool)
  {
    var merged := ToolCallMerged(call, m);
    ToolCallMergedText(call, m);
    ToolArgsTextAppend(before, call, tool);
    ToolArgsTextAppend(before, merged, tool);
    assert CallText(merged, tool) == CallText(call, tool) + CallText(m, tool);
    Assoc(ToolArgsText(before, tool), CallText(call, tool), CallText(m, tool));
  }

  lemma {:induction false} ToolsAddedText(dst: seq<Fields>, src: seq<Fields>, tool: Json)
    ensures ToolArgsText(ToolsAdded(dst, src), tool) == ToolArgsText(dst, tool) + ToolArgsText(src, tool)
  {
    if src != [] {
      var before, m := src[..|src| - 1], src[|src| - 1];
      assert src == before + [m];
      ToolsAddedText(dst, before, tool);
      ToolAddedText(ToolsAdded(dst, before), m, tool);
      Assoc(ToolArgsText(dst, tool), ToolArgsText(before, tool), CallText(m, tool));
    }
  }

  lemma ToolAddedText(ms: seq<Fields>, m: Fields, tool: Json)
    ensures ToolArgsText(ToolAdded(ms, m), tool) == ToolArgsText(ms, tool) + CallText(m, tool)
  {
    var p := LastAt(ms, RawIndex(m));
    if p < 0 { ToolArgsTextAppend(ms, m, tool); } else { ToolUpdateText(ms, p, m, tool); }
  }

  lemma ToolCallsMergedText(dd: Fields, raw: Json, tool: Json)
    requires ToolCallsMerged(dd, raw).Some?
    ensures ListArgsText(Get(ToolCallsMerged(dd, raw).value, "tool_calls"), tool)
         == ListArgsText(Get(dd, "tool_calls"), tool) + ListArgsText(Some(raw), tool)
  {
    var merged := ToolCallsMerged(dd, raw).value;
    var srcList := AsArray(Some(raw)).value;
    match AsArray(Get(dd, "tool_calls"))
    case None =>
      assert Get(merged, "tool_calls") == Some(raw);
      assert ListArgsText(Get(dd, "tool_calls"), tool) == "";
    case Some(dstList) =>
      var out := ToolsAdded(Objects(dstList), Objects(srcList));
      assert Get(merged, "tool_calls") == Some(Arr(ToItems(out)));
      ListOfMaps(out, tool);
      ToolsAddedText(Objects(dstList), Objects(srcList), tool);
  }

  lemma ListOfMaps(ms: seq<Fields>, tool: Json)
    ensures ListArgsText(Some(Arr(ToItems(ms))), tool) == ToolArgsText(ms, tool)
  {
    assert Objects(ToItems(ms)) == ms;
  }

  // ----- one choice keeps every channel

  lemma AppendStringText(dd: Fields, sd: Fields, key: string, k: string)
    ensures StrOf(Get(AppendString(dd, sd, key), k)) == StrOf(Get(dd, k)) + if k == key then StrOf(Get(sd, k)) else ""
    ensures k != key ==> Get(AppendString(dd, sd, key), k) == Get(dd, k)
  {
  }

  lemma TextsMergedText(dd: Fields, sd: Fields, part: Part)
    requires ValidPart(part)
    ensures DeltaPartText(TextsMerged(dd, sd), part) ==
      DeltaPartText(dd, part) + if part.DeltaText? then DeltaPartText(sd, part) else ""
  {
    var one := AppendString(dd, sd, "content");
    var two := AppendString(one, sd, "reasoning_content");
    var k := if part.DeltaText? then part.name else if part.CallArgs? then "function_call" else "tool_calls";
    AppendStringText(dd, sd, "content", k);
    AppendStringText(one, sd, "reasoning_content", k);
    AppendStringText(two, sd, "reasoning", k);
  }

  lemma FunctionCallMergedText(dd: Fields, raw: Json, part: Part)
    requires ValidPart(part)
    ensures var r := DeltaPartText(FunctionCallMerged(dd, raw), part);
      if part.CallArgs? then r == DeltaPartText(dd, part) + StrOf(Get(FieldsOf(Some(raw)), "arguments"))
      else r == DeltaPartText(dd, part)
  {
  }

  lemma CallMergedText(texts: Fields, sd: Fields, part: Part)
    requires ValidPart(part)
    ensures var call := if "function_call" in sd then FunctionCallMerged(texts, sd["function_call"]) else texts;
      DeltaPartText(call, part) == DeltaPartText(texts, part) + if part.CallArgs? then DeltaPartText(sd, part) else ""
  {
    if "function_call" in sd { FunctionCallMergedText(texts, sd["function_call"], part); }
  }

  function ToolsStep(call: Fields, sd: Fields): Option<Fields> {
    if "tool_calls" in sd then ToolCallsMerged(call, sd["tool_calls"]) else Some(call)
  }

  lemma OnlyToolCallsChange(d: Fields, r: Fields, part: Part)
    requires ValidPart(part) && !part.ToolArgs? && forall k :: k != "tool_calls" ==> Get(r, k) == Get(d, k)
    ensures DeltaPartText(r, part) == DeltaPartText(d, part)
  {
  }

  lemma ToolsStepText(call: Fields, sd: Fields, part: Part)
    requires ValidPart(part) && ToolsStep(call, sd).Some?
    ensures DeltaPartText(ToolsStep(call, sd).value, part) ==
      DeltaPartText(call, part) + if part.ToolArgs? then DeltaPartText(sd, part) else ""
  {
    if "tool_calls" in sd {
      if part.ToolArgs? {
        ToolCallsMergedText(call, sd["tool_calls"], part.tool);
      } else {
        OnlyToolCallsChange(call, ToolCallsMerged(call, sd["tool_calls"]).value, part);
      }
    }
  }

  /** Whatever the part, one of the three steps appends the source's text. */
  lemma OneStepAppends(part: Part, dd: string, texts: string, call: string, out: string, sd: string)
    requires part.LegacyText? ==> sd == ""
    requires texts == dd + if part.DeltaText? then sd else ""
    requires call == texts + if part.CallArgs? then sd else ""
    requires out == call + if part.ToolArgs? then sd else ""
    ensures out == dd + sd
  {
  }

  lemma DeltaMergedText(dd: Fields, sd: Fields, part: Part)
    requires ValidPart(part)
    requires DeltaMerged(dd, sd).Some?
    ensures DeltaPartText(DeltaMerged(dd, sd).value, part) == DeltaPartText(dd, part) + DeltaPartText(sd, part)
  {
    var texts := TextsMerged(dd, sd);
    var call := if "function_call" in sd then FunctionCallMerged(texts, sd["function_call"]) else texts;
    assert DeltaMerged(dd, sd) == ToolsStep(call, sd);
    TextsMergedText(dd, sd, part);
    CallMergedText(texts, sd, part);
    ToolsStepText(call, sd, part);
    OneStepAppends(part, DeltaPartText(dd, part), DeltaPartText(texts, part), DeltaPartText(call, part),
                   DeltaPartText(ToolsStep(call, sd).value, part), DeltaPartText(sd, part));
  }

  /** A choice that merges at all appends the source's text to each of its channels. */
  lemma ChoiceMergedText(dst: Fields, src: Fields, part: Part)
    requires ValidPart(part)
    requires ChoiceMerged(dst, src).Some?
    ensures PartText(ChoiceMerged(dst, src).value, part) == PartText(dst, part) + PartText(src, part)
  {
    var head := ChoiceHeadMerged(dst, src);
    assert Get(head, "delta") == Get(dst, "delta");
    assert StrOf(Get(head, "text")) == StrOf(Get(dst, "text")) + StrOf(Get(src, "text"));
    if "delta" in src && Get(dst, "delta").Some? && dst["delta"].Obj? {
      DeltaMergedText(dst["delta"].fields, src["delta"].fields, part);
    }
  }
}
