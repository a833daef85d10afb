/** The merge and key functions of sse_log.go as the source writes them: loops over
    decoded arrays with seen-maps and index-maps, and map entries overwritten one at
    a time. A method's map out-parameter is the map the Go function was given, as it
    stands on return. */
module MergeLoops {
  import opened Options
  import opened Json
  import opened MergeKeys
  import opened Merge

  // ----- keys

  method CollectToolCallIndexes(raw: Json) returns (out: seq<Json>, ok: bool)
    ensures ok <==> ToolCallIndexes(raw).Some?
    ensures ok ==> ToolCallIndexes(raw) == Some(out)
  {
    out := [];
    var arr := AsArray(Some(raw));
    if arr.None? || arr.value == [] {
      return out, false;
    }
    var items := arr.value;
    var seen: set<Json> := {};
    ghost var ms: seq<Fields> := [];
    for i := 0 to |items|
      invariant |ms| == i
      invariant forall j :: 0 <= j < i ==> items[j] == Obj(ms[j])
      invariant out == FirstIndexes(ms)
      invariant forall k :: k in seen <==> k in out
    {
      var m := AsObject(Some(items[i]));
      if m.None? {
        return out, false;
      }
      ms := ms + [m.value];
      assert ms[..|ms| - 1] == ms[..i];
      assert ms[..i] + [m.value] == ms;
      var idx := RawIndex(m.value);
      if idx in seen {
        continue;
      }
      seen := seen + {idx};
      out := out + [idx];
    }
    assert ms == Objects(items);
    ok := true;
  }

  method BuildOpenaiMergeKey(obj: Fields) returns (key: Option<Key>)
    ensures key == OpenAIKey(obj)
  {
    var choices := AsArray(Get(obj, "choices"));
    if choices.None? || choices.value == [] {
      return None;
    }
    var cs := choices.value;
    var keys: seq<ChoiceKey> := [];
    for i := 0 to |cs|
      invariant |keys| == i
      invariant forall j :: 0 <= j < i ==> Keyed(cs[j]) && keys[j] == ChoiceKeyOf(cs[j])
    {
      var m := AsObject(Some(cs[i]));
      if m.None? {
        assert !Keyed(cs[i]);
        return None;
      }
      var shape := ChoiceShapeOf(m.value);
      if shape.None? {
        assert !Keyed(cs[i]);
        return None;
      }
      keys := keys + [ChoiceKey(RawIndex(m.value), shape.value)];
    }
    assert keys == seq(|cs|, i requires 0 <= i < |cs| => ChoiceKeyOf(cs[i]));
    key := Some(OpenAI(keys));
  }

  // ----- tool calls

  lemma LastAtAppend(ms: seq<Fields>, m: Fields, k: Json)
    ensures LastAt(ms + [m], k) == if RawIndex(m) == k then |ms| else LastAt(ms, k)
  {
    assert (ms + [m])[..|ms|] == ms;
  }

  lemma {:induction false} LastAtDetermined(a: seq<Fields>, b: seq<Fields>, k: Json)
    requires |a| == |b|
    requires forall i :: 0 <= i < |a| ==> RawIndex(a[i]) == RawIndex(b[i])
    ensures LastAt(a, k) == LastAt(b, k)
  {
    if a != [] { LastAtDetermined(a[..|a| - 1], b[..|a| - 1], k); }
  }

  /** The index-map of a list: every index to its last position. */
  ghost predicate Indexes(byIdx: map<Json, nat>, ms: seq<Fields>) {
    forall k :: LastAt(ms, k) == if k in byIdx then byIdx[k] else -1
  }

  lemma IndexesAppend(byIdx: map<Json, nat>, ms: seq<Fields>, m: Fields)
    requires Indexes(byIdx, ms)
    ensures Indexes(byIdx[RawIndex(m) := |ms|], ms + [m])
  {
    forall k { LastAtAppend(ms, m, k); }
  }

  lemma IndexesUpdate(byIdx: map<Json, nat>, ms: seq<Fields>, p: nat, m: Fields)
    requires Indexes(byIdx, ms) && p < |ms| && RawIndex(m) == RawIndex(ms[p])
    ensures Indexes(byIdx, ms[p := m])
  {
    forall k { LastAtDetermined(ms, ms[p := m], k); }
  }

  method MergeToolCall(dst0: Fields, src: Fields) returns (dst: Fields)
    ensures dst == ToolCallMerged(dst0, src)
  {
    dst := dst0;
    var sf := AsObject(Get(src, "function"));
    if sf.None? { return; }
    if !IsString(Get(sf.value, "arguments")) { return; }
    var df := AsObject(Get(dst, "function"));
    if df.None? {
      dst := dst["function" := src["function"]];
      return;
    }
    var merged := ConcatField(df.value, "arguments", Get(sf.value, "arguments"));
    dst := dst["function" := Obj(merged)];
  }

  method IndexDstCalls(dstList: seq<Json>) returns (ok: bool, dstMaps: seq<Fields>, byIdx: map<Json, nat>)
    ensures ok <==> AllObjects(dstList)
    ensures ok ==> dstMaps == Objects(dstList) && Indexes(byIdx, dstMaps)
  {
    dstMaps, byIdx := [], map[];
    for i := 0 to |dstList|
      invariant |dstMaps| == i
      invariant forall j :: 0 <= j < i ==> dstList[j] == Obj(dstMaps[j])
      invariant Indexes(byIdx, dstMaps)
    {
      var m := AsObject(Some(dstList[i]));
      if m.None? {
        return false, dstMaps, byIdx;
      }
      IndexesAppend(byIdx, dstMaps, m.value);
      byIdx := byIdx[RawIndex(m.value) := i];
      dstMaps := dstMaps + [m.value];
    }
    ok := true;
    assert dstMaps == Objects(dstList);
  }

  lemma ToolAddedByIndex(dst: seq<Fields>, m: Fields, byIdx: map<Json, nat>)
    requires Indexes(byIdx, dst)
    ensures RawIndex(m) !in byIdx ==> ToolAdded(dst, m) == dst + [m]
    ensures RawIndex(m) in byIdx ==>
      var p := byIdx[RawIndex(m)];
      && p < |dst| && ToolAdded(dst, m) == dst[p := ToolCallMerged(dst[p], m)]
      && RawIndex(ToolCallMerged(dst[p], m)) == RawIndex(dst[p])
  {
    assert LastAt(dst, RawIndex(m)) == if RawIndex(m) in byIdx then byIdx[RawIndex(m)] else -1;
  }

  /** One turn of mergeToolCalls' loop. */
  method AddToolCall(dst: seq<Fields>, byIdx0: map<Json, nat>, sm: Fields)
    returns (dstMaps: seq<Fields>, byIdx: map<Json, nat>)
    requires Indexes(byIdx0, dst)
    ensures dstMaps == ToolAdded(dst, sm) && Indexes(byIdx, dstMaps)
  {
    dstMaps, byIdx := dst, byIdx0;
    var idx := RawIndex(sm);
    ToolAddedByIndex(dst, sm, byIdx);
    if idx !in byIdx {
      IndexesAppend(byIdx, dst, sm);
      dstMaps := dstMaps + [sm];
      byIdx := byIdx[idx := |dstMaps| - 1];
    } else {
      var di := byIdx[idx];
      var merged := MergeToolCall(dstMaps[di], sm);
      IndexesUpdate(byIdx, dst, di, merged);
      dstMaps := dstMaps[di := merged];
    }
  }

  /** The two loops of mergeToolCalls over its lists. */
  method AddToolCalls(dstList: seq<Json>, srcList: seq<Json>) returns (ok: bool, dstMaps: seq<Fields>)
    ensures ok <==> AllObjects(dstList) && AllObjects(srcList)
    ensures ok ==> dstMaps == ToolsAdded(Objects(dstList), Objects(srcList))
  {
    var byIdx;
    ok, dstMaps, byIdx := IndexDstCalls(dstList);
    if !ok { return; }
    ghost var dst := dstMaps;
    ghost var src: seq<Fields> := [];
    for i := 0 to |srcList|
      invariant |src| == i
      invariant forall j :: 0 <= j < i ==> srcList[j] == Obj(src[j])
      invariant dstMaps == ToolsAdded(dst, src)
      invariant Indexes(byIdx, dstMaps)
    {
      var sm := AsObject(Some(srcList[i]));
      if sm.None? {
        return false, dstMaps;
      }
      dstMaps, byIdx := AddToolCall(dstMaps, byIdx, sm.value);
      assert (src + [sm.value])[..i] == src;
      src := src + [sm.value];
    }
    assert src == Objects(srcList);
  }

  method MergeToolCalls(dd0: Fields, srcRaw: Json) returns (ok: bool, dd: Fields)
    ensures ok <==> ToolCallsMerged(dd0, srcRaw).Some?
    ensures dd == ToolCallsMerged(dd0, srcRaw).GetOr(dd0)
  {
    dd := dd0;
    var srcArr := AsArray(Some(srcRaw));
    if srcArr.None? { return false, dd; }
    var srcList := srcArr.value;
    var dstArr := AsArray(Get(dd, "tool_calls"));
    if dstArr.None? {
      dd := dd["tool_calls" := srcRaw];
      return true, dd;
    }
    var dstMaps;
    ok, dstMaps := AddToolCalls(dstArr.value, srcList);
    if !ok { return; }
    dd := dd["tool_calls" := Arr(ToItems(dstMaps))];
  }

  // ----- choices and deltas

  method MergeFunctionCall(dd0: Fields, srcRaw: Json) returns (dd: Fields)
    ensures dd == FunctionCallMerged(dd0, srcRaw)
  {
    dd := dd0;
    var sm := AsObject(Some(srcRaw));
    if sm.None? { return; }
    if !IsString(Get(sm.value, "arguments")) { return; }
    var dm := AsObject(Get(dd, "function_call"));
    if dm.None? {
      dd := dd["function_call" := srcRaw];
      return;
    }
    var call := dm.value;
    if "name" !in call {
      if "name" in sm.value {
        call := call["name" := sm.value["name"]];
      }
    }
    call := ConcatField(call, "arguments", Get(sm.value, "arguments"));
    dd := dd["function_call" := Obj(call)];
  }

  const DELTA_TEXTS: seq<string> := ["content", "reasoning_content", "reasoning"]

  /** mergeOpenAIChoice works on a decoded copy: on failure only the copy is half done. */
  method MergeOpenaiChoice(dst0: Fields, src: Fields) returns (ok: bool, dst: Fields)
    ensures ok <==> ChoiceMerged(dst0, src).Some?
    ensures ok ==> ChoiceMerged(dst0, src) == Some(dst)
  {
    dst := dst0;
    if "finish_reason" in src && !src["finish_reason"].Null? {
      dst := dst["finish_reason" := src["finish_reason"]];
    }
    if IsString(Get(src, "text")) {
      dst := ConcatField(dst, "text", Get(src, "text"));
    }
    assert dst == ChoiceHeadMerged(dst0, src);
    if "delta" !in src { return true, dst; }
    var sd := AsObject(Some(src["delta"]));
    if sd.None? { return false, dst; }
    var ddObj := AsObject(Get(dst, "delta"));
    if ddObj.None? {
      dst := dst["delta" := src["delta"]];
      return true, dst;
    }
    var dd := MergeTexts(ddObj.value, sd.value);
    if "function_call" in sd.value {
      dd := MergeFunctionCall(dd, sd.value["function_call"]);
    }
    if "tool_calls" in sd.value {
      ok, dd := MergeToolCalls(dd, sd.value["tool_calls"]);
      if !ok { return; }
    }
    dst := dst["delta" := Obj(dd)];
    ok := true;
  }

  /** The first n of the three text fields appended in turn. */
  function TextsMergedUpTo(dd: Fields, sd: Fields, n: nat): Fields
    requires n <= 3
  {
    if n == 0 then dd else AppendString(TextsMergedUpTo(dd, sd, n - 1), sd, DELTA_TEXTS[n - 1])
  }

  method MergeTexts(dd0: Fields, sd: Fields) returns (dd: Fields)
    ensures dd == TextsMerged(dd0, sd)
  {
    dd := dd0;
    for i := 0 to |DELTA_TEXTS|
      invariant dd == TextsMergedUpTo(dd0, sd, i)
    {
      var name := DELTA_TEXTS[i];
      if IsString(Get(sd, name)) {
        dd := ConcatField(dd, name, Get(sd, name));
      }
    }
    assert TextsMergedUpTo(dd0, sd, 1) == AppendString(TextsMergedUpTo(dd0, sd, 0), sd, "content");
    assert TextsMergedUpTo(dd0, sd, 2) == AppendString(TextsMergedUpTo(dd0, sd, 1), sd, "reasoning_content");
  }

  // ----- whole events

  ghost predicate IndexesChoices(srcByIdx: map<Json, Fields>, ss: seq<Fields>) {
    forall k ::
      var p := LastAt(ss, k);
      if p < 0 then k !in srcByIdx else k in srcByIdx && srcByIdx[k] == ss[p]
  }

  method IndexSrcChoices(srcChoices: seq<Json>) returns (ok: bool, srcByIdx: map<Json, Fields>)
    ensures ok <==> AllObjects(srcChoices)
    ensures ok ==> IndexesChoices(srcByIdx, Objects(srcChoices))
  {
    srcByIdx := map[];
    ghost var ms: seq<Fields> := [];
    for i := 0 to |srcChoices|
      invariant |ms| == i
      invariant forall j :: 0 <= j < i ==> srcChoices[j] == Obj(ms[j])
      invariant IndexesChoices(srcByIdx, ms)
    {
      var m := AsObject(Some(srcChoices[i]));
      if m.None? {
        return false, srcByIdx;
      }
      forall k { LastAtAppend(ms, m.value, k); }
      ms := ms + [m.value];
      srcByIdx := srcByIdx[RawIndex(m.value) := m.value];
    }
    assert ms == Objects(srcChoices);
    ok := true;
  }

  lemma ChoicesMergedUnique(dst: seq<Fields>, src: seq<Fields>, out: seq<Fields>)
    requires |out| == |dst|
    requires forall i :: 0 <= i < |dst| ==> MatchedChoice(dst[i], src) == Some(out[i])
    ensures ChoicesMerged(dst, src) == Some(out)
  {
    var r := ChoicesMerged(dst, src);
    assert r.Some?;
    forall i | 0 <= i < |out| ensures r.value[i] == out[i] {
      assert MatchedChoice(dst[i], src) == Some(r.value[i]);
    }
    assert r.value == out;
  }

  method MergeMatching(choice0: Fields, srcByIdx: map<Json, Fields>, ghost ss: seq<Fields>)
    returns (ok: bool, choice: Fields)
    requires IndexesChoices(srcByIdx, ss)
    ensures ok <==> MatchedChoice(choice0, ss).Some?
    ensures ok ==> MatchedChoice(choice0, ss) == Some(choice)
  {
    ok, choice := true, choice0;
    if RawIndex(choice) in srcByIdx {
      ok, choice := MergeOpenaiChoice(choice, srcByIdx[RawIndex(choice)]);
    }
  }

  method MergeChoices(dstChoices: seq<Json>, srcByIdx: map<Json, Fields>, ghost ss: seq<Fields>)
    returns (ok: bool, out: seq<Fields>)
    requires IndexesChoices(srcByIdx, ss)
    ensures ok <==> AllObjects(dstChoices) && ChoicesMerged(Objects(dstChoices), ss).Some?
    ensures ok ==> ChoicesMerged(Objects(dstChoices), ss) == Some(out)
  {
    ghost var ds: seq<Fields> := [];
    out := [];
    for i := 0 to |dstChoices|
      invariant |out| == |ds| == i
      invariant forall j :: 0 <= j < i ==> dstChoices[j] == Obj(ds[j])
      invariant forall j :: 0 <= j < i ==> MatchedChoice(ds[j], ss) == Some(out[j])
    {
      var dm := AsObject(Some(dstChoices[i]));
      if dm.None? {
        return false, out;
      }
      var choice;
      ok, choice := MergeMatching(dm.value, srcByIdx, ss);
      if !ok {
        assert AllObjects(dstChoices) ==> MatchedChoice(Objects(dstChoices)[i], ss).None?;
        return;
      }
      ds := ds + [dm.value];
      out := out + [choice];
    }
    assert ds == Objects(dstChoices);
    ChoicesMergedUnique(ds, ss, out);
    ok := true;
  }

  method MergeOpenaiDelta(dst0: Fields, src: Fields) returns (ok: bool, dst: Fields)
    ensures ok <==> OpenAIMerged(dst0, src).Some?
    ensures dst == OpenAIMerged(dst0, src).GetOr(dst0)
  {
    dst := dst0;
    var dstArr := AsArray(Get(dst, "choices"));
    if dstArr.None? { return false, dst; }
    var srcArr := AsArray(Get(src, "choices"));
    if srcArr.None? { return false, dst; }
    var srcByIdx, out;
    ok, srcByIdx := IndexSrcChoices(srcArr.value);
    if !ok { return; }
    ok, out := MergeChoices(dstArr.value, srcByIdx, Objects(srcArr.value));
    if !ok { return; }
    dst := dst["choices" := Arr(ToItems(out))];
    dst := CopyLast(dst, src, "sequence_number");
    dst := CopyLast(dst, src, "usage");
  }

  method MergeAnthropicDelta(dst0: Fields, src: Fields) returns (ok: bool, dst: Fields)
    ensures ok <==> AnthropicMerged(dst0, src).Some?
    ensures dst == AnthropicMerged(dst0, src).GetOr(dst0)
  {
    dst := dst0;
    var dd := AsObject(Get(dst, "delta"));
    if dd.None? { return false, dst; }
    var sd := AsObject(Get(src, "delta"));
    if sd.None? { return false, dst; }
    var field := AnthropicField(TypeOf(dd.value));
    if field.None? || !IsString(Get(sd.value, field.value)) { return false, dst; }
    dst := dst["delta" := Obj(ConcatField(dd.value, field.value, Get(sd.value, field.value)))];
    ok := true;
  }

  method MergeResponsesDelta(dst0: Fields, src: Fields) returns (ok: bool, dst: Fields)
    ensures ok <==> ResponsesMerged(dst0, src).Some?
    ensures dst == ResponsesMerged(dst0, src).GetOr(dst0)
  {
    dst := dst0;
    if !IsString(Get(src, "delta")) { return false, dst; }
    dst := ConcatField(dst, "delta", Get(src, "delta"));
    dst := CopyLast(dst, src, "sequence_number");
    ok := true;
  }

  /** mergeSSE: a refused merge leaves the target untouched. */
  method MergeSse(dst0: Fields, src: Fields) returns (ok: bool, dst: Fields)
    ensures ok <==> Merged(dst0, src).Some?
    ensures dst == Merged(dst0, src).GetOr(dst0)
  {
    var typ := TypeOf(dst0);
    if typ == "content_block_delta" {
      ok, dst := MergeAnthropicDelta(dst0, src);
    } else if HasPrefix(typ, "response.") {
      ok, dst := MergeResponsesDelta(dst0, src);
    } else {
      ok, dst := MergeOpenaiDelta(dst0, src);
    }
  }
}
