/** What merging one event into another means: the specification that the loops
    of MergeLoops.dfy are proved against. None is a refused merge. */
module Merge {
  import opened Options
  import opened Json
  import opened MergeKeys

  function ConcatField(obj: Fields, key: string, extra: Option<Json>): Fields {
    match AsString(extra)
    case None => obj
    case Some(b) => obj[key := Str(AsString(Get(obj, key)).GetOr("") + b)]
  }

  /** Appends src's string under name, if it has one. */
  function AppendString(dst: Fields, src: Fields, name: string): Fields {
    if IsString(Get(src, name)) then ConcatField(dst, name, Get(src, name)) else dst
  }

  function CopyLast(dst: Fields, src: Fields, key: string): Fields {
    if key in src then dst[key := src[key]] else dst
  }

  // ----- tool calls and function calls

  function ToolCallMerged(dst: Fields, src: Fields): Fields {
    var sf := FieldsOf(Get(src, "function"));
    if !IsString(Get(sf, "arguments")) then dst
    else match AsObject(Get(dst, "function"))
      case None => dst["function" := src["function"]]
      case Some(df) => dst["function" := Obj(ConcatField(df, "arguments", Get(sf, "arguments")))]
  }

  /** The last position whose index is k, or -1. */
  function LastAt(ms: seq<Fields>, k: Json): (p: int)
    ensures -1 <= p < |ms|
    ensures p >= 0 ==> RawIndex(ms[p]) == k
    ensures forall j :: p < j < |ms| ==> RawIndex(ms[j]) != k
  {
    if ms == [] then -1
    else if RawIndex(ms[|ms| - 1]) == k then |ms| - 1
    else LastAt(ms[..|ms| - 1], k)
  }

  /** One source call joins the last call with its index, or goes to the end. */
  function ToolAdded(dst: seq<Fields>, src: Fields): seq<Fields> {
    var p := LastAt(dst, RawIndex(src));
    if p < 0 then dst + [src] else dst[p := ToolCallMerged(dst[p], src)]
  }

  function ToolsAdded(dst: seq<Fields>, src: seq<Fields>): seq<Fields> {
    if src == [] then dst else ToolAdded(ToolsAdded(dst, src[..|src| - 1]), src[|src| - 1])
  }

  function ToolCallsMerged(dd: Fields, raw: Json): Option<Fields> {
    match AsArray(Some(raw))
    case None => None
    case Some(srcList) =>
      match AsArray(Get(dd, "tool_calls"))
      case None => Some(dd["tool_calls" := raw])
      case Some(dstList) =>
        if AllObjects(dstList) && AllObjects(srcList)
        then Some(dd["tool_calls" := Arr(ToItems(ToolsAdded(Objects(dstList), Objects(srcList))))])
        else None
  }

  function NameFilled(dm: Fields, sm: Fields): Fields {
    if "name" !in dm && "name" in sm then dm["name" := sm["name"]] else dm
  }

  function FunctionCallMerged(dd: Fields, raw: Json): Fields {
    var sm := FieldsOf(Some(raw));
    if !IsString(Get(sm, "arguments")) then dd
    else match AsObject(Get(dd, "function_call"))
      case None => dd["function_call" := raw]
      case Some(dm) => dd["function_call" := Obj(ConcatField(NameFilled(dm, sm), "arguments", Get(sm, "arguments")))]
  }

  // ----- one choice

  function TextsMerged(dd: Fields, sd: Fields): Fields {
    AppendString(AppendString(AppendString(dd, sd, "content"), sd, "reasoning_content"), sd, "reasoning")
  }

  function DeltaMerged(dd: Fields, sd: Fields): Option<Fields> {
    var texts := TextsMerged(dd, sd);
    var call := if "function_call" in sd then FunctionCallMerged(texts, sd["function_call"]) else texts;
    if "tool_calls" in sd then ToolCallsMerged(call, sd["tool_calls"]) else Some(call)
  }

  /** finish_reason and text, before the deltas are looked at. */
  function ChoiceHeadMerged(dst: Fields, src: Fields): Fields {
    var finished := if "finish_reason" in src && !src["finish_reason"].Null?
                    then dst["finish_reason" := src["finish_reason"]] else dst;
    AppendString(finished, src, "text")
  }

  function ChoiceMerged(dst: Fields, src: Fields): Option<Fields> {
    var head := ChoiceHeadMerged(dst, src);
    if "delta" !in src then Some(head)
    else match AsObject(Some(src["delta"]))
      case None => None
      case Some(sd) =>
        match AsObject(Get(head, "delta"))
        case None => Some(head["delta" := src["delta"]])
        case Some(dd) =>
          match DeltaMerged(dd, sd)
          case None => None
          case Some(d) => Some(head["delta" := Obj(d)])
  }

  // ----- whole events

  /** A choice of dst meets the last choice of src with its index, if there is one. */
  function MatchedChoice(dst: Fields, src: seq<Fields>): Option<Fields> {
    var p := LastAt(src, RawIndex(dst));
    if p < 0 then Some(dst) else ChoiceMerged(dst, src[p])
  }

  function ChoicesMerged(dst: seq<Fields>, src: seq<Fields>): (r: Option<seq<Fields>>)
    ensures r.Some? ==> |r.value| == |dst|
    ensures r.Some? ==> forall i :: 0 <= i < |dst| ==> MatchedChoice(dst[i], src) == Some(r.value[i])
    ensures r.None? ==> exists i :: 0 <= i < |dst| && MatchedChoice(dst[i], src).None?
  {
    if dst == [] then Some([])
    else
      match (ChoicesMerged(dst[..|dst| - 1], src), MatchedChoice(dst[|dst| - 1], src))
      case (Some(before), Some(last)) => Some(before + [last])
      case (None, _) =>
        None
      case (Some(before), None) =>
        assert MatchedChoice(dst[|dst| - 1], src).None?;
        None
  }

  function OpenAIMerged(dst: Fields, src: Fields): Option<Fields> {
    match (AsArray(Get(dst, "choices")), AsArray(Get(src, "choices")))
    case (Some(dcs), Some(scs)) =>
      if AllObjects(dcs) && AllObjects(scs) then
        match ChoicesMerged(Objects(dcs), Objects(scs))
        case None => None
        case Some(out) =>
          Some(CopyLast(CopyLast(dst["choices" := Arr(ToItems(out))], src, "sequence_number"), src, "usage"))
      else None
    case _ => None
  }

  function AnthropicMerged(dst: Fields, src: Fields): Option<Fields> {
    match (AsObject(Get(dst, "delta")), AsObject(Get(src, "delta")))
    case (Some(dd), Some(sd)) =>
      var field := AnthropicField(TypeOf(dd));
      if field.None? || !IsString(Get(sd, field.value)) then None
      else Some(dst["delta" := Obj(ConcatField(dd, field.value, Get(sd, field.value)))])
    case _ => None
  }

  function ResponsesMerged(dst: Fields, src: Fields): Option<Fields> {
    if !IsString(Get(src, "delta")) then None
    else Some(CopyLast(ConcatField(dst, "delta", Get(src, "delta")), src, "sequence_number"))
  }

  /** mergeSSE. Its switch tests only the prefix of the type, unlike RouteOf. */
  function Merged(dst: Fields, src: Fields): Option<Fields> {
    var typ := TypeOf(dst);
    if typ == "content_block_delta" then AnthropicMerged(dst, src)
    else if HasPrefix(typ, "response.") then ResponsesMerged(dst, src)
    else OpenAIMerged(dst, src)
  }
}
