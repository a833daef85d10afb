/** What a merge key says: which events have one, and exactly which events share it, told from
    the events' own fields. */
module KeyTheorems {
  import opened Options
  import opened Json
  import opened MergeKeys
  import opened MergeLaws

  /** The event's type field is this string. */
  predicate Typed(obj: Fields, t: string) {
    Get(obj, "type") == Some(Str(t))
  }

  lemma TypedIs(obj: Fields, name: string)
    requires name != ""
    ensures Typed(obj, name) <==> TypeOf(obj) == name
  {
  }

  predicate ResponsesDelta(name: string) {
    "response." <= name && |name| >= 6 && name[|name| - 6..] == ".delta"
  }

  lemma RouteByType(obj: Fields)
    ensures RouteOf(obj).AnthropicRoute? <==> TypeOf(obj) == "content_block_delta"
    ensures RouteOf(obj).ResponsesRoute? <==> ResponsesDelta(TypeOf(obj))
    ensures RouteOf(obj).OpenAIRoute? <==>
      !RouteOf(obj).AnthropicRoute? && !RouteOf(obj).ResponsesRoute? && "choices" in obj
  {
    assert "content_block_delta"[0] == 'c' && "response."[0] == 'r';
  }

  /** The protocol is told from the type, and from choices only where the type says nothing. */
  lemma RouteExactly(obj: Fields)
    ensures RouteOf(obj).AnthropicRoute? <==> Typed(obj, "content_block_delta")
    ensures RouteOf(obj).ResponsesRoute? <==> exists name :: Typed(obj, name) && ResponsesDelta(name)
    ensures RouteOf(obj).OpenAIRoute? <==>
      !RouteOf(obj).AnthropicRoute? && !RouteOf(obj).ResponsesRoute? && "choices" in obj
  {
    RouteByType(obj);
    TypedIs(obj, "content_block_delta");
    forall name | ResponsesDelta(name) ensures Typed(obj, name) <==> TypeOf(obj) == name { TypedIs(obj, name); }
  }

  // ----- indexes

  /** An index field that says 0, if only by not being there. */
  predicate Zeroth(m: Fields) {
    Get(m, "index") in {None, Some(Null), Some(Scalar("0"))}
  }

  lemma SameIndexExactly(a: Fields, b: Fields)
    ensures RawIndex(a) == RawIndex(b) <==> (Zeroth(a) && Zeroth(b)) || Get(a, "index") == Get(b, "index")
  {
  }

  // ----- Responses

  /** A Responses event can be merged exactly if it is one of ten kinds and its delta a string. */
  lemma ResponsesKeyExactly(obj: Fields)
    requires RouteOf(obj).ResponsesRoute?
    ensures MergeKey(obj).Some? <==>
      && (|| Typed(obj, "response.output_text.delta") || Typed(obj, "response.refusal.delta")
          || Typed(obj, "response.function_call_arguments.delta") || Typed(obj, "response.reasoning_text.delta")
          || Typed(obj, "response.reasoning.delta") || Typed(obj, "response.reasoning_summary_text.delta")
          || Typed(obj, "response.mcp_call.arguments.delta") || Typed(obj, "response.audio.transcript.delta")
          || Typed(obj, "response.code_interpreter_call_code.delta") || Typed(obj, "response.custom_tool_call_input.delta"))
      && IsString(Get(obj, "delta"))
  {
    assert Typed(obj, TypeOf(obj));
  }

  /** No part of x is of this field. */
  predicate Without(x: seq<(string, Json)>, field: string) {
    forall i :: 0 <= i < |x| ==> x[i].0 != field
  }

  lemma PartInFront(a: Fields, field: string, x: seq<(string, Json)>)
    requires Without(x, field)
    ensures field in a <==> KeyPart(a, field) + x != [] && (KeyPart(a, field) + x)[0].0 == field
    ensures field in a ==> (KeyPart(a, field) + x)[0].1 == a[field] && (KeyPart(a, field) + x)[1..] == x
    ensures field !in a ==> KeyPart(a, field) + x == x
  {
  }

  /** The key part of a field can be told from those of the fields after it. */
  lemma PartTold(a: Fields, b: Fields, field: string, x: seq<(string, Json)>, y: seq<(string, Json)>)
    requires Without(x, field) && Without(y, field)
    ensures KeyPart(a, field) + x == KeyPart(b, field) + y <==> Get(a, field) == Get(b, field) && x == y
  {
    PartInFront(a, field, x);
    PartInFront(b, field, y);
  }

  predicate SamePart(a: Fields, b: Fields) {
    && Get(a, "item_id") == Get(b, "item_id") && Get(a, "output_index") == Get(b, "output_index")
    && Get(a, "content_index") == Get(b, "content_index") && Get(a, "summary_index") == Get(b, "summary_index")
  }

  function LastParts(obj: Fields): seq<(string, Json)> {
    KeyPart(obj, "content_index") + KeyPart(obj, "summary_index")
  }

  lemma PartsRight(obj: Fields)
    ensures ItemParts(obj) == KeyPart(obj, "item_id") + (KeyPart(obj, "output_index") + LastParts(obj))
  {
  }

  lemma LastPartsTold(a: Fields, b: Fields)
    ensures Without(LastParts(a), "item_id") && Without(LastParts(a), "output_index")
    ensures LastParts(a) == LastParts(b) <==>
      Get(a, "content_index") == Get(b, "content_index") && Get(a, "summary_index") == Get(b, "summary_index")
  {
    PartTold(a, b, "summary_index", [], []);
    PartTold(a, b, "content_index", KeyPart(a, "summary_index"), KeyPart(b, "summary_index"));
  }

  lemma PartsTold(a: Fields, b: Fields)
    ensures ItemParts(a) == ItemParts(b) <==> SamePart(a, b)
  {
    PartsRight(a);
    PartsRight(b);
    LastPartsTold(a, b);
    LastPartsTold(b, a);
    var s, t := LastParts(a), LastParts(b);
    PartTold(a, b, "output_index", s, t);
    PartTold(a, b, "item_id", KeyPart(a, "output_index") + s, KeyPart(b, "output_index") + t);
  }

  lemma SameTypes(a: Fields, b: Fields)
    requires TypeOf(a) != "" && TypeOf(b) != ""
    ensures TypeOf(a) == TypeOf(b) <==> Get(a, "type") == Get(b, "type")
  {
  }

  lemma ResponsesKeyIs(obj: Fields)
    requires MergeKey(obj).Some? && MergeKey(obj).value.Responses?
    ensures MergeKey(obj) == Some(Responses(TypeOf(obj), ItemParts(obj))) && TypeOf(obj) != ""
  {
  }

  /** Two of them are merged only if they are of one kind and of one part of one item. */
  lemma ResponsesKeysEqual(a: Fields, b: Fields)
    requires MergeKey(a).Some? && MergeKey(a).value.Responses?
    requires MergeKey(b).Some? && MergeKey(b).value.Responses?
    ensures SameKey(a, b) <==> Get(a, "type") == Get(b, "type") && SamePart(a, b)
  {
    PartsTold(a, b);
    ResponsesKeyIs(a);
    ResponsesKeyIs(b);
    SameTypes(a, b);
  }

  // ----- Anthropic

  /** A delta of this type with a string under this field. */
  predicate DeltaWith(obj: Fields, deltaType: string, field: string) {
    var delta := AsObject(Get(obj, "delta"));
    delta.Some? && Typed(delta.value, deltaType) && IsString(Get(delta.value, field))
  }

  lemma AnthropicKeyExactly(obj: Fields)
    ensures MergeKey(obj).Some? && MergeKey(obj).value.Anthropic? <==>
      && Typed(obj, "content_block_delta")
      && (|| DeltaWith(obj, "text_delta", "text") || DeltaWith(obj, "thinking_delta", "thinking")
          || DeltaWith(obj, "input_json_delta", "partial_json") || DeltaWith(obj, "signature_delta", "signature"))
  {
  }

  lemma AnthropicKeysEqual(a: Fields, b: Fields)
    requires MergeKey(a).Some? && MergeKey(a).value.Anthropic?
    requires MergeKey(b).Some? && MergeKey(b).value.Anthropic?
    ensures SameKey(a, b) <==>
      && ((Zeroth(a) && Zeroth(b)) || Get(a, "index") == Get(b, "index"))
      && Get(FieldsOf(Get(a, "delta")), "type") == Get(FieldsOf(Get(b, "delta")), "type")
  {
    SameIndexExactly(a, b);
    AnthropicKeyExactly(a);
    AnthropicKeyExactly(b);
  }

  // ----- OpenAI

  /** A list of at least one tool call. */
  predicate ToolList(v: Json) {
    v.Arr? && v.items != [] && AllObjects(v.items)
  }

  /** A function call with arguments that can be appended to. */
  predicate CallWithArguments(d: Fields) {
    var call := AsObject(Get(d, "function_call"));
    call.Some? && IsString(Get(call.value, "arguments"))
  }

  predicate DeltaCanGrow(d: Fields) {
    if "tool_calls" in d then ToolList(d["tool_calls"])
    else IsString(Get(d, "content")) || IsString(Get(d, "reasoning_content")) || IsString(Get(d, "reasoning"))
         || CallWithArguments(d)
  }

  /** A choice with something in it to append to. */
  predicate ChoiceCanGrow(ch: Fields) {
    if "delta" in ch then ch["delta"].Obj? && DeltaCanGrow(ch["delta"].fields) else IsString(Get(ch, "text"))
  }

  predicate CanGrow(item: Json) {
    item.Obj? && ChoiceCanGrow(item.fields)
  }

  lemma DeltaShapeExactly(d: Fields)
    ensures DeltaShapeOf(d).Some? <==> DeltaCanGrow(d)
  {
  }

  lemma KeyedExactly(item: Json)
    ensures Keyed(item) <==> CanGrow(item)
  {
    if item.Obj? && "delta" in item.fields && item.fields["delta"].Obj? { DeltaShapeExactly(item.fields["delta"].fields); }
  }

  /** An OpenAI event can be merged exactly if every one of its choices can grow. */
  lemma OpenAIKeyExactly(obj: Fields)
    ensures MergeKey(obj).Some? && MergeKey(obj).value.OpenAI? <==>
      && RouteOf(obj).OpenAIRoute? && Get(obj, "choices").Some? && obj["choices"].Arr? && obj["choices"].items != []
      && forall i :: 0 <= i < |obj["choices"].items| ==> CanGrow(obj["choices"].items[i])
  {
    if RouteOf(obj).OpenAIRoute? && obj["choices"].Arr? {
      var cs := obj["choices"].items;
      forall i | 0 <= i < |cs| ensures Keyed(cs[i]) <==> CanGrow(cs[i]) { KeyedExactly(cs[i]); }
    }
  }

  predicate SameToolIndexes(d: Fields, e: Fields) {
    && ("tool_calls" in d <==> "tool_calls" in e)
    && ("tool_calls" in d && ToolList(d["tool_calls"]) && ToolList(e["tool_calls"]) ==>
          FirstIndexes(Objects(d["tool_calls"].items)) == FirstIndexes(Objects(e["tool_calls"].items)))
  }

  /** The same fields of the deltas can grow. */
  predicate SameGrowth(d: Fields, e: Fields) {
    && (IsString(Get(d, "content")) <==> IsString(Get(e, "content")))
    && (IsString(Get(d, "reasoning_content")) <==> IsString(Get(e, "reasoning_content")))
    && (IsString(Get(d, "reasoning")) <==> IsString(Get(e, "reasoning")))
    && (CallWithArguments(d) <==> CallWithArguments(e))
    && SameToolIndexes(d, e)
  }

  predicate SameChoice(a: Fields, b: Fields) {
    && ((Zeroth(a) && Zeroth(b)) || Get(a, "index") == Get(b, "index"))
    && ("delta" in a <==> "delta" in b)
    && ("delta" in a && a["delta"].Obj? && b["delta"].Obj? ==> SameGrowth(a["delta"].fields, b["delta"].fields))
  }

  lemma SameDeltaShape(d: Fields, e: Fields)
    requires DeltaCanGrow(d) && DeltaCanGrow(e)
    ensures DeltaShapeOf(d) == DeltaShapeOf(e) <==> SameGrowth(d, e)
  {
  }

  lemma SameChoiceKey(a: Json, b: Json)
    requires CanGrow(a) && CanGrow(b)
    ensures Keyed(a) && Keyed(b)
    ensures ChoiceKeyOf(a) == ChoiceKeyOf(b) <==> SameChoice(a.fields, b.fields)
  {
    KeyedExactly(a);
    KeyedExactly(b);
    SameIndexExactly(a.fields, b.fields);
    if "delta" in a.fields && "delta" in b.fields { SameDeltaShape(a.fields["delta"].fields, b.fields["delta"].fields); }
  }

  /** Two of them are merged only if their choices, one by one, have the same index and the
      same fields that can grow. */
  lemma OpenAIKeysEqual(a: Fields, b: Fields)
    requires MergeKey(a).Some? && MergeKey(a).value.OpenAI?
    requires MergeKey(b).Some? && MergeKey(b).value.OpenAI?
    ensures "choices" in a && a["choices"].Arr? && "choices" in b && b["choices"].Arr?
    ensures var cs, ds := a["choices"].items, b["choices"].items;
      SameKey(a, b) <==> |cs| == |ds| && forall i :: 0 <= i < |cs| && cs[i].Obj? && ds[i].Obj? ==> SameChoice(cs[i].fields, ds[i].fields)
  {
    OpenAIKeyExactly(a);
    OpenAIKeyExactly(b);
    var cs := OpenAIKeyChoices(a);
    var ds := OpenAIKeyChoices(b);
    var ka, kb := MergeKey(a).value.choices, MergeKey(b).value.choices;
    assert |ka| == |cs| && |kb| == |ds|;
    forall i | 0 <= i < |cs| && i < |ds| ensures ka[i] == kb[i] <==> SameChoice(cs[i].fields, ds[i].fields) {
      SameChoiceKey(cs[i], ds[i]);
    }
    if ka == kb {
      assert forall i :: 0 <= i < |cs| ==> ka[i] == kb[i];
    }
  }

  // ----- tool call indexes

  /** The first call of the list with index k, or the length of the list. */
  function FirstAt(ms: seq<Fields>, k: Json): (p: nat)
    ensures p <= |ms|
    ensures p < |ms| ==> RawIndex(ms[p]) == k
    ensures forall i :: 0 <= i < p ==> RawIndex(ms[i]) != k
  {
    if ms == [] then 0
    else
      var before := FirstAt(ms[..|ms| - 1], k);
      if before < |ms| - 1 || RawIndex(ms[|ms| - 1]) == k then before else |ms|
  }

  lemma KnownIndex(ms: seq<Fields>, k: Json)
    requires ms != [] && k in FirstIndexes(ms[..|ms| - 1])
    ensures FirstAt(ms, k) == FirstAt(ms[..|ms| - 1], k) < |ms| - 1
  {
    var before := ms[..|ms| - 1];
    FirstIndexesMembers(before);
    var i :| 0 <= i < |before| && RawIndex(before[i]) == k;
    assert FirstAt(before, k) <= i;
  }

  lemma FirstAtEnd(ms: seq<Fields>, k: Json)
    requires ms != [] && RawIndex(ms[|ms| - 1]) == k && forall i :: 0 <= i < |ms| - 1 ==> RawIndex(ms[i]) != k
    ensures FirstAt(ms, k) == |ms| - 1
  {
  }

  lemma NewIndexLast(ms: seq<Fields>)
    requires ms != [] && RawIndex(ms[|ms| - 1]) !in FirstIndexes(ms[..|ms| - 1])
    ensures FirstAt(ms, RawIndex(ms[|ms| - 1])) == |ms| - 1
  {
    var before, k := ms[..|ms| - 1], RawIndex(ms[|ms| - 1]);
    FirstIndexesMembers(before);
    forall i | 0 <= i < |before| ensures RawIndex(ms[i]) != k { assert before[i] == ms[i]; }
    FirstAtEnd(ms, k);
  }

  predicate InOrder(ms: seq<Fields>, ks: seq<Json>) {
    forall i, j :: 0 <= i < j < |ks| ==> FirstAt(ms, ks[i]) < FirstAt(ms, ks[j])
  }

  /** The indexes of a list are those of its calls, each once, in the order they first come. */
  lemma {:induction false} FirstIndexesExactly(ms: seq<Fields>)
    ensures var ks := FirstIndexes(ms);
      InOrder(ms, ks) && forall k :: k in ks <==> exists i :: 0 <= i < |ms| && RawIndex(ms[i]) == k
  {
    FirstIndexesMembers(ms);
    if ms != [] {
      var before, ks := FirstIndexes(ms[..|ms| - 1]), FirstIndexes(ms);
      FirstIndexesExactly(ms[..|ms| - 1]);
      forall i | 0 <= i < |before| ensures FirstAt(ms, before[i]) == FirstAt(ms[..|ms| - 1], before[i]) < |ms| - 1 {
        KnownIndex(ms, before[i]);
      }
      if |ks| > |before| { NewIndexLast(ms); }
      assert forall i :: 0 <= i < |before| ==> ks[i] == before[i];
    }
  }
}
