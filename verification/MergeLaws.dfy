/** What a merge of two events with the same key keeps: the merge succeeds, the
    key does not move, every channel gets the source's text appended, and the last
    non-null finish_reason wins. And the exact condition for the text law. */
module MergeLaws {
  import opened Options
  import opened Json
  import opened MergeKeys
  import opened Merge
  import opened Channels

  /** mergeSSE sends the event where sseMergeable did. False for an object with
      choices whose type starts with response. and does not end in .delta. */
  predicate RoutedAlike(obj: Fields) {
    RouteOf(obj).OpenAIRoute? ==> !HasPrefix(TypeOf(obj), "response.")
  }

  predicate DistinctIndexes(key: Key) {
    key.OpenAI? ==>
      forall i, j :: 0 <= i < j < |key.choices| ==> key.choices[i].index != key.choices[j].index
  }

  predicate SameKey(dst: Fields, src: Fields) {
    MergeKey(dst).Some? && MergeKey(dst) == MergeKey(src)
  }

  // ----- tool call indexes

  lemma {:induction false} FirstIndexesMembers(ms: seq<Fields>)
    ensures forall k :: k in FirstIndexes(ms) <==> exists i :: 0 <= i < |ms| && RawIndex(ms[i]) == k
  {
    if ms != [] {
      var n := |ms| - 1;
      FirstIndexesMembers(ms[..n]);
      forall k ensures k in FirstIndexes(ms) <==> exists i :: 0 <= i < |ms| && RawIndex(ms[i]) == k {
        if k in FirstIndexes(ms[..n]) {
          var i :| 0 <= i < n && RawIndex(ms[..n][i]) == k;
          assert RawIndex(ms[i]) == k;
        }
        if exists i :: 0 <= i < |ms| && RawIndex(ms[i]) == k {
          var i :| 0 <= i < |ms| && RawIndex(ms[i]) == k;
          if i < n { assert RawIndex(ms[..n][i]) == k; }
        }
        assert RawIndex(ms[n]) == k ==> k in FirstIndexes(ms);
      }
    }
  }

  lemma {:induction false} FirstIndexesDetermined(a: seq<Fields>, b: seq<Fields>)
    requires |a| == |b|
    requires forall i :: 0 <= i < |a| ==> RawIndex(a[i]) == RawIndex(b[i])
    ensures FirstIndexes(a) == FirstIndexes(b)
  {
    if a != [] {
      FirstIndexesDetermined(a[..|a| - 1], b[..|a| - 1]);
    }
  }

  lemma ToolAddedIndexes(dst: seq<Fields>, m: Fields)
    requires RawIndex(m) in FirstIndexes(dst)
    ensures |ToolAdded(dst, m)| == |dst| && FirstIndexes(ToolAdded(dst, m)) == FirstIndexes(dst)
  {
    FirstIndexesMembers(dst);
    var p := LastAt(dst, RawIndex(m));
    ToolCallMergedText(dst[p], m);
    FirstIndexesDetermined(dst, dst[p := ToolCallMerged(dst[p], m)]);
  }

  /** Calls whose indexes the target already has never lengthen its index list. */
  lemma {:induction false} ToolsAddedIndexes(dst: seq<Fields>, src: seq<Fields>)
    requires forall i :: 0 <= i < |src| ==> RawIndex(src[i]) in FirstIndexes(dst)
    ensures |ToolsAdded(dst, src)| == |dst|
    ensures FirstIndexes(ToolsAdded(dst, src)) == FirstIndexes(dst)
  {
    if src != [] {
      var n := |src| - 1;
      assert forall i :: 0 <= i < n ==> src[..n][i] == src[i];
      ToolsAddedIndexes(dst, src[..n]);
      ToolAddedIndexes(ToolsAdded(dst, src[..n]), src[n]);
    }
  }

  lemma ItemsBack(ms: seq<Fields>)
    ensures AllObjects(ToItems(ms)) && Objects(ToItems(ms)) == ms
  {
  }

  lemma ItemsIndexes(ms: seq<Fields>)
    requires ms != []
    ensures ToolCallIndexes(Arr(ToItems(ms))) == Some(FirstIndexes(ms))
  {
    ItemsBack(ms);
  }

  lemma ToolCallsMergedIs(dd: Fields, dst: seq<Json>, src: seq<Json>)
    requires Get(dd, "tool_calls") == Some(Arr(dst)) && AllObjects(dst) && AllObjects(src)
    ensures ToolCallsMerged(dd, Arr(src)) == Some(dd["tool_calls" := Arr(ToItems(ToolsAdded(Objects(dst), Objects(src))))])
  {
  }

  lemma ToolCallsKeyStable(dd: Fields, raw: Json)
    requires "tool_calls" in dd
    requires ToolCallIndexes(raw).Some? && ToolCallIndexes(dd["tool_calls"]) == ToolCallIndexes(raw)
    ensures ToolCallsMerged(dd, raw).Some?
    ensures var r := ToolCallsMerged(dd, raw).value;
      "tool_calls" in r && ToolCallIndexes(r["tool_calls"]) == ToolCallIndexes(raw)
      && forall k :: k != "tool_calls" ==> Get(r, k) == Get(dd, k)
  {
    var dst := Objects(AsArray(Some(dd["tool_calls"])).value);
    var src := Objects(AsArray(Some(raw)).value);
    FirstIndexesMembers(src);
    ToolsAddedIndexes(dst, src);
    ItemsIndexes(ToolsAdded(dst, src));
    ToolCallsMergedIs(dd, AsArray(Some(dd["tool_calls"])).value, AsArray(Some(raw)).value);
  }

  // ----- one choice

  /** The bits of a delta's shape that come from its strings. */
  predicate SameStrings(d: Fields, e: Fields) {
    && IsString(Get(d, "content")) == IsString(Get(e, "content"))
    && IsString(Get(d, "reasoning_content")) == IsString(Get(e, "reasoning_content"))
    && IsString(Get(d, "reasoning")) == IsString(Get(e, "reasoning"))
  }

  predicate HasCall(d: Fields) {
    "function_call" in d && FunctionCallHasArgs(d["function_call"])
  }

  lemma TextsKeyStable(dd: Fields, sd: Fields)
    requires SameStrings(dd, sd)
    ensures SameStrings(TextsMerged(dd, sd), dd)
    ensures Get(TextsMerged(dd, sd), "function_call") == Get(dd, "function_call")
    ensures Get(TextsMerged(dd, sd), "tool_calls") == Get(dd, "tool_calls")
  {
  }

  lemma CallKeyStable(dd: Fields, raw: Json)
    requires FunctionCallHasArgs(raw) ==> HasCall(dd)
    ensures HasCall(FunctionCallMerged(dd, raw)) == HasCall(dd)
    ensures SameStrings(FunctionCallMerged(dd, raw), dd)
    ensures Get(FunctionCallMerged(dd, raw), "tool_calls") == Get(dd, "tool_calls")
  {
  }

  /** Two deltas of one shape, piece by piece. */
  predicate SamePieces(d: Fields, e: Fields) {
    && SameStrings(d, e)
    && HasCall(d) == HasCall(e)
    && ("tool_calls" in d <==> "tool_calls" in e)
    && ("tool_calls" in d ==> ToolCallIndexes(d["tool_calls"]) == ToolCallIndexes(e["tool_calls"]))
  }

  lemma SameShapeSamePieces(d: Fields, e: Fields)
    requires DeltaShapeOf(d).Some?
    ensures SamePieces(d, e) <==> DeltaShapeOf(d) == DeltaShapeOf(e)
  {
  }

  lemma OnlyToolCallsDiffer(d: Fields, r: Fields)
    requires forall k :: k != "tool_calls" ==> Get(r, k) == Get(d, k)
    ensures SameStrings(r, d) && HasCall(r) == HasCall(d)
  {
    assert Get(r, "function_call") == Get(d, "function_call");
  }

  lemma DeltaPiecesStable(dd: Fields, sd: Fields)
    requires SamePieces(dd, sd)
    requires "tool_calls" in sd ==> ToolCallIndexes(sd["tool_calls"]).Some?
    ensures DeltaMerged(dd, sd).Some? && SamePieces(DeltaMerged(dd, sd).value, sd)
  {
    var texts := TextsMerged(dd, sd);
    TextsKeyStable(dd, sd);
    var call := if "function_call" in sd then FunctionCallMerged(texts, sd["function_call"]) else texts;
    if "function_call" in sd {
      CallKeyStable(texts, sd["function_call"]);
    }
    assert HasCall(call) == HasCall(sd) && SameStrings(call, sd) && Get(call, "tool_calls") == Get(dd, "tool_calls");
    if "tool_calls" in sd {
      ToolCallsKeyStable(call, sd["tool_calls"]);
      OnlyToolCallsDiffer(call, ToolCallsMerged(call, sd["tool_calls"]).value);
    }
  }

  lemma DeltaKeyStable(dd: Fields, sd: Fields)
    requires DeltaShapeOf(sd).Some? && DeltaShapeOf(dd) == DeltaShapeOf(sd)
    ensures DeltaMerged(dd, sd).Some? && DeltaShapeOf(DeltaMerged(dd, sd).value) == DeltaShapeOf(sd)
  {
    SameShapeSamePieces(dd, sd);
    DeltaPiecesStable(dd, sd);
    SameShapeSamePieces(sd, DeltaMerged(dd, sd).value);
  }

  lemma ChoiceKeyStable(dst: Fields, src: Fields)
    requires ChoiceShapeOf(src).Some? && ChoiceShapeOf(dst) == ChoiceShapeOf(src)
    ensures ChoiceMerged(dst, src).Some?
    ensures var r := ChoiceMerged(dst, src).value;
      ChoiceShapeOf(r) == ChoiceShapeOf(src) && RawIndex(r) == RawIndex(dst)
  {
    var head := ChoiceHeadMerged(dst, src);
    assert Get(head, "delta") == Get(dst, "delta");
    assert Get(head, "index") == Get(dst, "index");
    if "delta" in src {
      DeltaKeyStable(dst["delta"].fields, src["delta"].fields);
    }
  }

  // ----- whole events

  /** The choices behind an OpenAI key. */
  lemma OpenAIKeyChoices(obj: Fields) returns (cs: seq<Json>)
    requires OpenAIKey(obj).Some?
    ensures AsArray(Get(obj, "choices")) == Some(cs) && cs != [] && AllObjects(cs)
    ensures ChoicesOf(obj) == Objects(cs)
    ensures |cs| == |OpenAIKey(obj).value.choices|
    ensures forall i :: 0 <= i < |cs| ==> Keyed(cs[i]) && ChoiceKeyOf(cs[i]) == OpenAIKey(obj).value.choices[i]
  {
    cs := AsArray(Get(obj, "choices")).value;
    assert forall i :: 0 <= i < |cs| ==> Keyed(cs[i]);
  }

  lemma OpenAIKeyOf(obj: Fields, cs: seq<Json>, keys: seq<ChoiceKey>)
    requires AsArray(Get(obj, "choices")) == Some(cs) && cs != [] && |cs| == |keys|
    requires forall i :: 0 <= i < |cs| ==> Keyed(cs[i]) && ChoiceKeyOf(cs[i]) == keys[i]
    ensures OpenAIKey(obj) == Some(OpenAI(keys))
  {
    assert keys == seq(|cs|, i requires 0 <= i < |cs| => ChoiceKeyOf(cs[i]));
  }

  /** Every choice finds a partner of its own shape, so no merge is refused. */
  lemma MatchedChoiceSucceeds(dst: Fields, src: Fields, i: nat)
    requires OpenAIKey(dst).Some? && OpenAIKey(dst) == OpenAIKey(src)
    requires i < |ChoicesOf(dst)|
    requires DistinctIndexes(OpenAIKey(dst).value)
    ensures i < |ChoicesOf(src)| && LastAt(ChoicesOf(src), RawIndex(ChoicesOf(dst)[i])) == i
    ensures MatchedChoice(ChoicesOf(dst)[i], ChoicesOf(src)) == ChoiceMerged(ChoicesOf(dst)[i], ChoicesOf(src)[i])
    ensures ChoiceShapeOf(ChoicesOf(dst)[i]).Some? && ChoiceShapeOf(ChoicesOf(dst)[i]) == ChoiceShapeOf(ChoicesOf(src)[i])
  {
    var dcs := OpenAIKeyChoices(dst);
    var scs := OpenAIKeyChoices(src);
    var key := OpenAIKey(dst).value;
    assert ChoiceKeyOf(dcs[i]) == key.choices[i] == ChoiceKeyOf(scs[i]);
    assert RawIndex(ChoicesOf(src)[i]) == key.choices[i].index == RawIndex(ChoicesOf(dst)[i]);
    assert forall p :: 0 <= p < |scs| ==> RawIndex(ChoicesOf(src)[p]) == key.choices[p].index by {
      assert forall p :: 0 <= p < |scs| ==> ChoiceKeyOf(scs[p]) == key.choices[p];
    }
  }

  lemma OpenAIMergedChoices(dst: Fields, src: Fields, out: seq<Fields>)
    requires AsArray(Get(dst, "choices")).Some? && AllObjects(AsArray(Get(dst, "choices")).value)
    requires AsArray(Get(src, "choices")).Some? && AllObjects(AsArray(Get(src, "choices")).value)
    requires ChoicesMerged(ChoicesOf(dst), ChoicesOf(src)) == Some(out)
    ensures OpenAIMerged(dst, src).Some?
    ensures var r := OpenAIMerged(dst, src).value;
      && Get(r, "choices") == Some(Arr(ToItems(out))) && ChoicesOf(r) == out
      && "choices" in r && Get(r, "type") == Get(dst, "type")
  {
    var dcs, scs := AsArray(Get(dst, "choices")).value, AsArray(Get(src, "choices")).value;
    assert ChoicesOf(dst) == Objects(dcs) && ChoicesOf(src) == Objects(scs);
    var r := OpenAIMerged(dst, src).value;
    assert r == CopyLast(CopyLast(dst["choices" := Arr(ToItems(out))], src, "sequence_number"), src, "usage");
    assert Get(r, "choices") == Some(Arr(ToItems(out))) && Get(r, "type") == Get(dst, "type");
    ItemsBack(out);
    assert ChoicesOf(r) == Objects(ToItems(out));
  }

  /** A choice merged with its partner keeps its shape and index. */
  predicate KeptChoice(d: Fields, s: Fields, m: Option<Fields>) {
    m.Some? && m == ChoiceMerged(d, s) && ChoiceShapeOf(m.value) == ChoiceShapeOf(d) && RawIndex(m.value) == RawIndex(d)
  }

  lemma ChoicesMergeKeeps(dst: Fields, src: Fields)
    requires OpenAIKey(dst).Some? && OpenAIKey(dst) == OpenAIKey(src)
    requires DistinctIndexes(OpenAIKey(dst).value)
    ensures var ds, ss := ChoicesOf(dst), ChoicesOf(src);
      && |ds| == |ss| && ChoicesMerged(ds, ss).Some?
      && forall i :: 0 <= i < |ds| ==> KeptChoice(ds[i], ss[i], Some(ChoicesMerged(ds, ss).value[i]))
  {
    var ds, ss := ChoicesOf(dst), ChoicesOf(src);
    var dcs := OpenAIKeyChoices(dst);
    var scs := OpenAIKeyChoices(src);
    forall i | 0 <= i < |ds|
      ensures i < |ss| && MatchedChoice(ds[i], ss).Some? && KeptChoice(ds[i], ss[i], MatchedChoice(ds[i], ss))
    {
      MatchedChoiceSucceeds(dst, src, i);
      ChoiceKeyStable(ds[i], ss[i]);
    }
  }

  /** Objects with the same choices, by shape and index, have the same key. */
  lemma SameChoicesSameKey(dst: Fields, r: Fields, out: seq<Fields>)
    requires OpenAIKey(dst).Some? && Get(r, "choices") == Some(Arr(ToItems(out))) && |out| == |ChoicesOf(dst)|
    requires forall i :: 0 <= i < |out| ==>
      ChoiceShapeOf(out[i]) == ChoiceShapeOf(ChoicesOf(dst)[i]) && RawIndex(out[i]) == RawIndex(ChoicesOf(dst)[i])
    ensures OpenAIKey(r) == OpenAIKey(dst)
  {
    var dcs := OpenAIKeyChoices(dst);
    var key := OpenAIKey(dst).value.choices;
    forall i | 0 <= i < |out| ensures Keyed(ToItems(out)[i]) && ChoiceKeyOf(ToItems(out)[i]) == key[i] {
      assert Keyed(dcs[i]) && ChoiceKeyOf(dcs[i]) == key[i];
    }
    OpenAIKeyOf(r, ToItems(out), key);
  }

  lemma OpenAIMergeKeeps(dst: Fields, src: Fields)
    requires OpenAIKey(dst).Some? && OpenAIKey(dst) == OpenAIKey(src)
    requires DistinctIndexes(OpenAIKey(dst).value)
    ensures OpenAIMerged(dst, src).Some?
    ensures var r := OpenAIMerged(dst, src).value;
      && OpenAIKey(r) == OpenAIKey(dst)
      && Get(r, "type") == Get(dst, "type") && "choices" in r
      && |ChoicesOf(r)| == |ChoicesOf(dst)| == |ChoicesOf(src)|
      && forall i :: 0 <= i < |ChoicesOf(r)| ==>
           ChoiceMerged(ChoicesOf(dst)[i], ChoicesOf(src)[i]) == Some(ChoicesOf(r)[i])
  {
    var dcs := OpenAIKeyChoices(dst);
    var scs := OpenAIKeyChoices(src);
    ChoicesMergeKeeps(dst, src);
    var out := ChoicesMerged(ChoicesOf(dst), ChoicesOf(src)).value;
    OpenAIMergedChoices(dst, src, out);
    assert forall i :: 0 <= i < |out| ==> KeptChoice(ChoicesOf(dst)[i], ChoicesOf(src)[i], Some(out[i]));
    SameChoicesSameKey(dst, OpenAIMerged(dst, src).value, out);
  }

  lemma AnthropicMergeKeeps(dst: Fields, src: Fields)
    requires SameKey(dst, src) && RouteOf(dst).AnthropicRoute?
    ensures Merged(dst, src).Some?
    ensures var r := Merged(dst, src).value; MergeKey(r) == MergeKey(dst) && TypeOf(r) == TypeOf(dst) && RoutedAlike(r)
  {
    var dd, sd := dst["delta"].fields, src["delta"].fields;
    var field := AnthropicField(TypeOf(dd)).value;
    assert Get(ConcatField(dd, field, Get(sd, field)), "type") == Get(dd, "type");
  }

  lemma SameResponsesKey(dst: Fields, r: Fields)
    requires forall k :: k !in {"delta", "sequence_number"} ==> Get(r, k) == Get(dst, k)
    requires IsString(Get(dst, "delta")) && IsString(Get(r, "delta"))
    ensures ResponsesKey(r) == ResponsesKey(dst)
  {
    assert Get(r, "type") == Get(dst, "type");
    assert KeyPart(r, "item_id") == KeyPart(dst, "item_id") by { assert Get(r, "item_id") == Get(dst, "item_id"); }
    assert KeyPart(r, "output_index") == KeyPart(dst, "output_index") by { assert Get(r, "output_index") == Get(dst, "output_index"); }
    assert KeyPart(r, "content_index") == KeyPart(dst, "content_index") by { assert Get(r, "content_index") == Get(dst, "content_index"); }
    assert KeyPart(r, "summary_index") == KeyPart(dst, "summary_index") by { assert Get(r, "summary_index") == Get(dst, "summary_index"); }
  }

  lemma ResponsesMergeKeeps(dst: Fields, src: Fields)
    requires SameKey(dst, src) && RouteOf(dst).ResponsesRoute?
    ensures Merged(dst, src).Some?
    ensures var r := Merged(dst, src).value; MergeKey(r) == MergeKey(dst) && TypeOf(r) == TypeOf(dst) && RoutedAlike(r)
  {
    var r := Merged(dst, src).value;
    assert forall k :: k !in {"delta", "sequence_number"} ==> Get(r, k) == Get(dst, k);
    assert Get(r, "type") == Get(dst, "type");
    SameResponsesKey(dst, r);
  }

  /** With equal keys, a merge succeeds and does not move the key. */
  lemma MergeKeepsKey(dst: Fields, src: Fields)
    requires SameKey(dst, src) && RoutedAlike(dst) && DistinctIndexes(MergeKey(dst).value)
    ensures Merged(dst, src).Some?
    ensures var r := Merged(dst, src).value; MergeKey(r) == MergeKey(dst) && TypeOf(r) == TypeOf(dst) && RoutedAlike(r)
  {
    match RouteOf(dst)
    case AnthropicRoute => AnthropicMergeKeeps(dst, src);
    case ResponsesRoute => ResponsesMergeKeeps(dst, src);
    case OpenAIRoute => OpenAIMergeKeeps(dst, src);
    case NoRoute =>
  }
}
