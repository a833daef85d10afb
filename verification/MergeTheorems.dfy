/** Main results about one merge: nothing is lost, and exactly when that holds. */
module MergeTheorems {
  import opened Sequences
  import opened Options
  import opened Json
  import opened MergeKeys
  import opened Merge
  import opened Channels
  import opened MergeLaws
  import opened KeyTheorems

  // ----- text

  predicate DistinctRawIndexes(ms: seq<Fields>) {
    forall i, j :: 0 <= i < j < |ms| ==> RawIndex(ms[i]) != RawIndex(ms[j])
  }

  lemma {:induction false} AbsentChoiceText(ms: seq<Fields>, k: Json, part: Part)
    requires ValidPart(part)
    requires forall i :: 0 <= i < |ms| ==> RawIndex(ms[i]) != k
    ensures ChoicesText(ms, k, part) == ""
  {
    if ms != [] { AbsentChoiceText(ms[..|ms| - 1], k, part); }
  }

  lemma {:induction false} OnlyChoiceText(ms: seq<Fields>, i: nat, part: Part)
    requires ValidPart(part)
    requires i < |ms| && DistinctRawIndexes(ms)
    ensures ChoicesText(ms, RawIndex(ms[i]), part) == PartText(ms[i], part)
  {
    var n := |ms| - 1;
    if i == n {
      AbsentChoiceText(ms[..n], RawIndex(ms[i]), part);
    } else {
      OnlyChoiceText(ms[..n], i, part);
    }
  }

  lemma ChoicesMergedText(ds: seq<Fields>, ss: seq<Fields>, out: seq<Fields>, k: Json, part: Part)
    requires ValidPart(part)
    requires |ds| == |ss| == |out| && DistinctRawIndexes(ds)
    requires forall i :: 0 <= i < |ds| ==> RawIndex(ds[i]) == RawIndex(ss[i]) == RawIndex(out[i])
    requires forall i :: 0 <= i < |ds| ==> ChoiceMerged(ds[i], ss[i]) == Some(out[i])
    ensures ChoicesText(out, k, part) == ChoicesText(ds, k, part) + ChoicesText(ss, k, part)
  {
    if i :| 0 <= i < |ds| && RawIndex(ds[i]) == k {
      OnlyChoiceText(ds, i, part);
      OnlyChoiceText(ss, i, part);
      OnlyChoiceText(out, i, part);
      ChoiceMergedText(ds[i], ss[i], part);
    } else {
      AbsentChoiceText(ds, k, part);
      AbsentChoiceText(ss, k, part);
      AbsentChoiceText(out, k, part);
    }
  }

  lemma OpenAIMergeText(dst: Fields, src: Fields, k: Json, part: Part)
    requires ValidPart(part)
    requires OpenAIKey(dst).Some? && OpenAIKey(dst) == OpenAIKey(src) && DistinctIndexes(OpenAIKey(dst).value)
    ensures OpenAIMerged(dst, src).Some?
    ensures ChoicesText(ChoicesOf(OpenAIMerged(dst, src).value), k, part)
         == ChoicesText(ChoicesOf(dst), k, part) + ChoicesText(ChoicesOf(src), k, part)
  {
    OpenAIMergeKeeps(dst, src);
    var r := OpenAIMerged(dst, src).value;
    var key := OpenAIKey(dst).value;
    var dcs := OpenAIKeyChoices(dst);
    var scs := OpenAIKeyChoices(src);
    var rcs := OpenAIKeyChoices(r);
    forall i | 0 <= i < |dcs|
      ensures RawIndex(ChoicesOf(dst)[i]) == RawIndex(ChoicesOf(src)[i]) == RawIndex(ChoicesOf(r)[i]) == key.choices[i].index
    {
      assert ChoiceKeyOf(dcs[i]) == ChoiceKeyOf(scs[i]) == ChoiceKeyOf(rcs[i]) == key.choices[i];
    }
    ChoicesMergedText(ChoicesOf(dst), ChoicesOf(src), ChoicesOf(r), k, part);
  }

  lemma AnthropicMergeText(dst: Fields, src: Fields, c: Channel)
    requires SameKey(dst, src) && RouteOf(dst).AnthropicRoute? && ValidChannel(c)
    ensures Merged(dst, src).Some? && Text(Merged(dst, src).value, c) == Text(dst, c) + Text(src, c)
  {
    var dd, sd := dst["delta"].fields, src["delta"].fields;
    var field := AnthropicField(TypeOf(dd)).value;
    assert Get(ConcatField(dd, field, Get(sd, field)), "type") == Get(dd, "type");
  }

  /** mergeResponsesDelta keeps what the key and the route are made of. */
  lemma ResponsesMergedIs(dst: Fields, src: Fields)
    requires IsString(Get(src, "delta"))
    ensures var r := ResponsesMerged(dst, src).value;
      && (forall k :: k !in {"delta", "sequence_number"} ==> Get(r, k) == Get(dst, k))
      && StrOf(Get(r, "delta")) == StrOf(Get(dst, "delta")) + StrOf(Get(src, "delta"))
  {
    var r := ResponsesMerged(dst, src).value;
    assert forall k :: k !in {"delta", "sequence_number"} ==> Get(r, k) == Get(dst, k);
  }

  lemma ResponsesMergeText(dst: Fields, src: Fields, c: Channel)
    requires SameKey(dst, src) && RouteOf(dst).ResponsesRoute? && RouteOf(src).ResponsesRoute? && ValidChannel(c)
    ensures Merged(dst, src).Some? && Text(Merged(dst, src).value, c) == Text(dst, c) + Text(src, c)
  {
    ResponsesMergedIs(dst, src);
    ResponsesKeysEqual(dst, src);
    if c.Item? { ItemTextAppends(dst, src, ResponsesMerged(dst, src).value, c); }
  }

  lemma ItemTextAppends(dst: Fields, src: Fields, r: Fields, c: Channel)
    requires c.Item? && RouteOf(dst).ResponsesRoute? && RouteOf(src).ResponsesRoute? && RouteOf(r).ResponsesRoute?
    requires OfItem(dst, c) == OfItem(src, c) == OfItem(r, c)
    requires StrOf(Get(r, "delta")) == StrOf(Get(dst, "delta")) + StrOf(Get(src, "delta"))
    ensures Text(r, c) == Text(dst, c) + Text(src, c)
  {
  }

  lemma RoutesAgree(dst: Fields, src: Fields)
    requires SameKey(dst, src)
    ensures RouteOf(src) == RouteOf(dst)
  {
  }

  /** A merge appends the source's text to every channel. */
  lemma MergeAppends(dst: Fields, src: Fields, c: Channel)
    requires SameKey(dst, src) && RoutedAlike(dst) && DistinctIndexes(MergeKey(dst).value) && ValidChannel(c)
    ensures Merged(dst, src).Some? && Text(Merged(dst, src).value, c) == Text(dst, c) + Text(src, c)
  {
    if RouteOf(dst).AnthropicRoute? {
      AnthropicMergeText(dst, src, c);
    } else if RouteOf(dst).ResponsesRoute? {
      RoutesAgree(dst, src);
      ResponsesMergeText(dst, src, c);
    } else {
      MergeKeepsKey(dst, src);
      if c.Choice? { OpenAIMergeText(dst, src, c.index, c.part); }
    }
  }

  // ----- finish reasons

  function Finish(ch: Fields): Option<Json> {
    if "finish_reason" in ch && !ch["finish_reason"].Null? then Some(ch["finish_reason"]) else None
  }

  function FinishAt(obj: Fields, i: nat): Option<Json> {
    if i < |ChoicesOf(obj)| then Finish(ChoicesOf(obj)[i]) else None
  }

  function Later<T>(a: Option<T>, b: Option<T>): Option<T> {
    if b.Some? then b else a
  }

  lemma ChoiceMergedFinish(dst: Fields, src: Fields)
    requires ChoiceMerged(dst, src).Some?
    ensures Finish(ChoiceMerged(dst, src).value) == Later(Finish(dst), Finish(src))
  {
    var head := ChoiceHeadMerged(dst, src);
    assert Finish(head) == Later(Finish(dst), Finish(src));
    assert Get(ChoiceMerged(dst, src).value, "finish_reason") == Get(head, "finish_reason");
  }

  lemma MergeFinish(dst: Fields, src: Fields, i: nat)
    requires SameKey(dst, src) && RoutedAlike(dst) && DistinctIndexes(MergeKey(dst).value) && RouteOf(dst).OpenAIRoute?
    ensures Merged(dst, src).Some? && FinishAt(Merged(dst, src).value, i) == Later(FinishAt(dst, i), FinishAt(src, i))
  {
    OpenAIMergeKeeps(dst, src);
    if i < |ChoicesOf(dst)| {
      ChoiceMergedFinish(ChoicesOf(dst)[i], ChoicesOf(src)[i]);
    }
  }

  // ----- the other fields

  /** The fields of an event that a merge takes from the later event, if that has them. */
  predicate FromLater(obj: Fields, k: string) {
    if RouteOf(obj).OpenAIRoute? then k == "usage" || k == "sequence_number"
    else RouteOf(obj).ResponsesRoute? && k == "sequence_number"
  }

  /** Every field but the choices or the delta is the later one or the one that was there. */
  lemma MergeFields(dst: Fields, src: Fields, k: string)
    requires RoutedAlike(dst) && Merged(dst, src).Some? && !RouteOf(dst).NoRoute?
    requires k != if RouteOf(dst).OpenAIRoute? then "choices" else "delta"
    ensures Get(Merged(dst, src).value, k) == if FromLater(dst, k) then Later(Get(dst, k), Get(src, k)) else Get(dst, k)
  {
  }

  /** Of a choice nothing else changes, so its index and its logprobs are the first ones. */
  lemma ChoiceFields(dst: Fields, src: Fields, k: string)
    requires ChoiceMerged(dst, src).Some? && k !in {"finish_reason", "text", "delta"}
    ensures Get(ChoiceMerged(dst, src).value, k) == Get(dst, k)
  {
  }

  /** Nor of its delta: the role is the first one. */
  lemma DeltaFields(dd: Fields, sd: Fields, k: string)
    requires DeltaMerged(dd, sd).Some?
    requires k !in {"content", "reasoning_content", "reasoning", "function_call", "tool_calls"}
    ensures Get(DeltaMerged(dd, sd).value, k) == Get(dd, k)
  {
  }

  /** A function call that was there keeps all it had, and takes over the name it lacks. */
  lemma FunctionCallFields(dd: Fields, sm: Fields, k: string)
    requires "function_call" in dd && dd["function_call"].Obj? && IsString(Get(sm, "arguments")) && k != "arguments"
    ensures var call := Get(FunctionCallMerged(dd, Obj(sm)), "function_call");
      call.Some? && call.value.Obj?
      && Get(call.value.fields, k) ==
           var prior := Get(dd["function_call"].fields, k); if k == "name" && prior.None? then Get(sm, k) else prior
  {
  }

  /** A tool call that was there keeps all it had; only its function's arguments grow. */
  lemma ToolCallFields(dst: Fields, src: Fields, k: string)
    ensures k != "function" ==> Get(ToolCallMerged(dst, src), k) == Get(dst, k)
    ensures k != "arguments" && "function" in dst && dst["function"].Obj? ==>
      Get(FieldsOf(Get(ToolCallMerged(dst, src), "function")), k) == Get(dst["function"].fields, k)
  {
  }

  /** What is not there yet is taken as it comes; what brings nothing to append is passed over. */
  lemma TakenWhole(dst: Fields, src: Fields, raw: Json)
    ensures IsString(Get(FieldsOf(Get(src, "function")), "arguments")) && AsObject(Get(dst, "function")).None? ==>
      Get(ToolCallMerged(dst, src), "function") == Get(src, "function")
    ensures !IsString(Get(FieldsOf(Get(src, "function")), "arguments")) ==> ToolCallMerged(dst, src) == dst
    ensures IsString(Get(FieldsOf(Some(raw)), "arguments")) && AsObject(Get(dst, "function_call")).None? ==>
      Get(FunctionCallMerged(dst, raw), "function_call") == Some(raw)
    ensures !IsString(Get(FieldsOf(Some(raw)), "arguments")) ==> FunctionCallMerged(dst, raw) == dst
    ensures "delta" in src && src["delta"].Obj? && AsObject(Get(dst, "delta")).None? ==>
      ChoiceMerged(dst, src).Some? && Get(ChoiceMerged(dst, src).value, "delta") == Get(src, "delta")
    ensures "delta" !in src ==> ChoiceMerged(dst, src).Some? && Get(ChoiceMerged(dst, src).value, "delta") == Get(dst, "delta")
    ensures "delta" in src && !src["delta"].Obj? ==> ChoiceMerged(dst, src).None?
  {
  }

  // ----- the exact condition

  ghost predicate Lossless(dst: Fields, src: Fields) {
    Merged(dst, src).Some? ==>
      forall c :: ValidChannel(c) ==> Text(Merged(dst, src).value, c) == Text(dst, c) + Text(src, c)
  }

  function IndexesOf(obj: Fields): seq<Json> {
    var ms := ChoicesOf(obj);
    seq(|ms|, i requires 0 <= i < |ms| => RawIndex(ms[i]))
  }

  /** No pair of same-key events of this type and these choice indexes loses text. */
  ghost predicate NeverLoses(typ: string, indexes: seq<Json>) {
    forall dst, src ::
      SameKey(dst, src) && RouteOf(dst).OpenAIRoute? && TypeOf(dst) == typ && IndexesOf(dst) == indexes
      ==> Lossless(dst, src)
  }

  function WitnessChoice(index: Json, text: string): Json {
    Obj(map["index" := index, "delta" := Obj(map["content" := Str(text)])])
  }

  /** An event whose only text is the content of choice at. */
  function Witness(typ: string, indexes: seq<Json>, at: nat, text: string): Fields {
    map["type" := Str(typ), "delta" := Str(""),
        "choices" := Arr(seq(|indexes|, i requires 0 <= i < |indexes| => WitnessChoice(indexes[i], if i == at then text else "")))]
  }

  /** The choice indexes and the type of an event the OpenAI branch can be given. */
  predicate Reachable(typ: string, indexes: seq<Json>) {
    && typ != "content_block_delta" && !(HasPrefix(typ, "response.") && HasSuffix(typ, ".delta"))
    && indexes != [] && forall i :: 0 <= i < |indexes| ==> !indexes[i].Null?
  }

  lemma WitnessChoices(typ: string, indexes: seq<Json>, at: nat, text: string)
    requires Reachable(typ, indexes)
    ensures var e := Witness(typ, indexes, at, text); var cs := e["choices"].items;
      && RouteOf(e).OpenAIRoute? && TypeOf(e) == typ
      && AllObjects(cs) && ChoicesOf(e) == Objects(cs) && |ChoicesOf(e)| == |indexes|
      && forall i :: 0 <= i < |indexes| ==>
           ChoicesOf(e)[i] == WitnessChoice(indexes[i], if i == at then text else "").fields
  {
    var cs := Witness(typ, indexes, at, text)["choices"].items;
    assert AllObjects(cs);
  }

  lemma WitnessChoiceShape(index: Json, text: string)
    requires !index.Null?
    ensures var ch := WitnessChoice(index, text).fields;
      && RawIndex(ch) == index
      && ChoiceShapeOf(ch) == Some(DeltaShape(true, false, false, false, None))
      && PartText(ch, DeltaText("content")) == text
  {
  }

  lemma WitnessShape(typ: string, indexes: seq<Json>, at: nat, text: string)
    requires Reachable(typ, indexes)
    ensures var e := Witness(typ, indexes, at, text);
      && RouteOf(e).OpenAIRoute? && TypeOf(e) == typ && IndexesOf(e) == indexes
      && |ChoicesOf(e)| == |indexes|
      && AsArray(Get(e, "choices")).Some? && AllObjects(AsArray(Get(e, "choices")).value)
      && (forall i :: 0 <= i < |indexes| ==>
            && RawIndex(ChoicesOf(e)[i]) == indexes[i]
            && ChoiceShapeOf(ChoicesOf(e)[i]) == Some(DeltaShape(true, false, false, false, None))
            && PartText(ChoicesOf(e)[i], DeltaText("content")) == (if i == at then text else ""))
      && MergeKey(e) == Some(OpenAI(seq(|indexes|, i requires 0 <= i < |indexes| =>
           ChoiceKey(indexes[i], DeltaShape(true, false, false, false, None)))))
  {
    var e := Witness(typ, indexes, at, text);
    var keys := seq(|indexes|, i requires 0 <= i < |indexes| =>
      ChoiceKey(indexes[i], DeltaShape(true, false, false, false, None)));
    WitnessChoices(typ, indexes, at, text);
    forall i | 0 <= i < |indexes|
      ensures RawIndex(ChoicesOf(e)[i]) == indexes[i]
      ensures ChoiceShapeOf(ChoicesOf(e)[i]) == Some(DeltaShape(true, false, false, false, None))
      ensures PartText(ChoicesOf(e)[i], DeltaText("content")) == (if i == at then text else "")
    {
      WitnessChoiceShape(indexes[i], if i == at then text else "");
    }
    assert IndexesOf(e) == indexes;
    OpenAIKeyOf(e, e["choices"].items, keys);
  }

  lemma {:induction false} SilentChoicesText(ms: seq<Fields>, k: Json, part: Part)
    requires ValidPart(part)
    requires forall i :: 0 <= i < |ms| ==> ChoiceText(ms[i], k, part) == ""
    ensures ChoicesText(ms, k, part) == ""
  {
    if ms != [] { SilentChoicesText(ms[..|ms| - 1], k, part); }
  }

  lemma {:induction false} OneVoiceText(ms: seq<Fields>, at: nat, k: Json, part: Part)
    requires ValidPart(part) && at < |ms|
    requires forall i :: 0 <= i < |ms| && i != at ==> ChoiceText(ms[i], k, part) == ""
    ensures ChoicesText(ms, k, part) == ChoiceText(ms[at], k, part)
  {
    var n := |ms| - 1;
    var rest := ms[..n];
    assert forall i :: 0 <= i < n ==> rest[i] == ms[i];
    if at == n {
      SilentChoicesText(rest, k, part);
    } else {
      OneVoiceText(rest, at, k, part);
    }
  }

  const CONTENT := DeltaText("content")

  lemma OnlyVoice(e: Fields, at: nat)
    requires RouteOf(e).OpenAIRoute? && at < |ChoicesOf(e)|
    requires forall i :: 0 <= i < |ChoicesOf(e)| && i != at ==> PartText(ChoicesOf(e)[i], CONTENT) == ""
    ensures Text(e, Choice(RawIndex(ChoicesOf(e)[at]), CONTENT)) == PartText(ChoicesOf(e)[at], CONTENT)
  {
    OneVoiceText(ChoicesOf(e), at, RawIndex(ChoicesOf(e)[at]), CONTENT);
  }

  lemma WitnessText(typ: string, indexes: seq<Json>, at: nat, text: string)
    requires Reachable(typ, indexes) && at < |indexes|
    ensures Text(Witness(typ, indexes, at, text), Choice(indexes[at], CONTENT)) == text
  {
    WitnessShape(typ, indexes, at, text);
    OnlyVoice(Witness(typ, indexes, at, text), at);
  }

  lemma TextGone(dst: Fields, src: Fields, c: Channel)
    requires ValidChannel(c) && Merged(dst, src).Some?
    requires Text(Merged(dst, src).value, c) == "" && Text(src, c) == "x"
    ensures !Lossless(dst, src)
  {
  }

  const CONTENT_SHAPE := DeltaShape(true, false, false, false, None)

  /** Two choices of the same shape without text merge into one without text. */
  lemma SilentMatch(d: Fields, ss: seq<Fields>, p: nat)
    requires p < |ss| && p == LastAt(ss, RawIndex(d))
    requires ChoiceShapeOf(d) == ChoiceShapeOf(ss[p]) == Some(CONTENT_SHAPE)
    requires PartText(d, CONTENT) == PartText(ss[p], CONTENT) == ""
    ensures MatchedChoice(d, ss).Some? && PartText(MatchedChoice(d, ss).value, CONTENT) == ""
  {
    ChoiceKeyStable(d, ss[p]);
    ChoiceMergedText(d, ss[p], CONTENT);
  }

  /** srcByIdx keeps the last duplicate, so every choice is merged with a silent one. */
  lemma DuplicatesMatchSilence(typ: string, indexes: seq<Json>, at: nat, later: nat, i: nat)
    requires Reachable(typ, indexes)
    requires at < later < |indexes| && indexes[at] == indexes[later] && i < |indexes|
    ensures var ds, ss := ChoicesOf(Witness(typ, indexes, at, "")), ChoicesOf(Witness(typ, indexes, at, "x"));
      && i < |ds| && MatchedChoice(ds[i], ss).Some?
      && PartText(MatchedChoice(ds[i], ss).value, CONTENT) == ""
  {
    WitnessShape(typ, indexes, at, "");
    WitnessShape(typ, indexes, at, "x");
    var ds, ss := ChoicesOf(Witness(typ, indexes, at, "")), ChoicesOf(Witness(typ, indexes, at, "x"));
    var p := LastAt(ss, indexes[i]);
    assert RawIndex(ss[i]) == indexes[i] && RawIndex(ss[later]) == RawIndex(ss[at]);
    SilentMatch(ds[i], ss, p);
  }

  lemma {:induction false} AllMatchedMerge(ds: seq<Fields>, ss: seq<Fields>, k: Json)
    requires forall i :: 0 <= i < |ds| ==>
      MatchedChoice(ds[i], ss).Some? && PartText(MatchedChoice(ds[i], ss).value, CONTENT) == ""
    ensures ChoicesMerged(ds, ss).Some? && ChoicesText(ChoicesMerged(ds, ss).value, k, CONTENT) == ""
  {
    if ChoicesMerged(ds, ss).Some? { SilentChoicesText(ChoicesMerged(ds, ss).value, k, CONTENT); }
  }

  lemma DuplicatesMergeSilent(typ: string, indexes: seq<Json>, at: nat, later: nat)
    requires Reachable(typ, indexes)
    requires at < later < |indexes| && indexes[at] == indexes[later]
    ensures var out := ChoicesMerged(ChoicesOf(Witness(typ, indexes, at, "")), ChoicesOf(Witness(typ, indexes, at, "x")));
      out.Some? && ChoicesText(out.value, indexes[at], CONTENT) == ""
  {
    var ds, ss := ChoicesOf(Witness(typ, indexes, at, "")), ChoicesOf(Witness(typ, indexes, at, "x"));
    WitnessSize(typ, indexes, at, "");
    forall i | 0 <= i < |ds|
      ensures MatchedChoice(ds[i], ss).Some? && PartText(MatchedChoice(ds[i], ss).value, CONTENT) == ""
    {
      DuplicatesMatchSilence(typ, indexes, at, later, i);
    }
    AllMatchedMerge(ds, ss, indexes[at]);
  }

  lemma WitnessSize(typ: string, indexes: seq<Json>, at: nat, text: string)
    requires Reachable(typ, indexes)
    ensures |ChoicesOf(Witness(typ, indexes, at, text))| == |indexes|
  {
    WitnessShape(typ, indexes, at, text);
  }

  lemma OpenAITextGone(dst: Fields, src: Fields, k: Json)
    requires RouteOf(dst).OpenAIRoute? && RoutedAlike(dst)
    requires AsArray(Get(dst, "choices")).Some? && AllObjects(AsArray(Get(dst, "choices")).value)
    requires AsArray(Get(src, "choices")).Some? && AllObjects(AsArray(Get(src, "choices")).value)
    requires var out := ChoicesMerged(ChoicesOf(dst), ChoicesOf(src));
      out.Some? && ChoicesText(out.value, k, CONTENT) == ""
    requires Text(src, Choice(k, CONTENT)) == "x"
    ensures !Lossless(dst, src)
  {
    OpenAIMergedChoices(dst, src, ChoicesMerged(ChoicesOf(dst), ChoicesOf(src)).value);
    OpenAIRouteKept(dst, OpenAIMerged(dst, src).value);
    assert Merged(dst, src) == OpenAIMerged(dst, src);
    TextGone(dst, src, Choice(k, CONTENT));
  }

  lemma OpenAIRouteKept(dst: Fields, r: Fields)
    requires RouteOf(dst).OpenAIRoute? && "choices" in r && Get(r, "type") == Get(dst, "type")
    ensures RouteOf(r).OpenAIRoute?
  {
  }

  lemma DuplicateLoses(typ: string, indexes: seq<Json>, at: nat, later: nat)
    requires Reachable(typ, indexes) && !HasPrefix(typ, "response.")
    requires at < later < |indexes| && indexes[at] == indexes[later]
    ensures !Lossless(Witness(typ, indexes, at, ""), Witness(typ, indexes, at, "x"))
  {
    DuplicatesMergeSilent(typ, indexes, at, later);
    WitnessShape(typ, indexes, at, "");
    WitnessShape(typ, indexes, at, "x");
    WitnessText(typ, indexes, at, "x");
    OpenAITextGone(Witness(typ, indexes, at, ""), Witness(typ, indexes, at, "x"), indexes[at]);
  }

  /** A response. type outside .delta goes to mergeResponsesDelta, which drops the choices. */
  lemma MisroutedLoses(typ: string, indexes: seq<Json>)
    requires Reachable(typ, indexes) && HasPrefix(typ, "response.")
    ensures !Lossless(Witness(typ, indexes, 0, ""), Witness(typ, indexes, 0, "x"))
  {
    var dst, src := Witness(typ, indexes, 0, ""), Witness(typ, indexes, 0, "x");
    WitnessShape(typ, indexes, 0, "");
    WitnessText(typ, indexes, 0, "");
    WitnessText(typ, indexes, 0, "x");
    var r := Merged(dst, src).value;
    assert Get(r, "choices") == Get(dst, "choices") && Get(r, "type") == Get(dst, "type");
    assert ChoicesOf(r) == ChoicesOf(dst) && RouteOf(r) == RouteOf(dst);
    TextGone(dst, src, Choice(indexes[0], CONTENT));
  }

  /** Merging OpenAI events is lossless exactly when the indexes are distinct and
      the type does not start with response. */
  lemma LosslessExactly(typ: string, indexes: seq<Json>)
    requires Reachable(typ, indexes)
    ensures NeverLoses(typ, indexes) <==> Distinct(indexes) && !HasPrefix(typ, "response.")
  {
    if Distinct(indexes) && !HasPrefix(typ, "response.") {
      forall dst, src, c | SameKey(dst, src) && RouteOf(dst).OpenAIRoute? && TypeOf(dst) == typ
                           && IndexesOf(dst) == indexes && ValidChannel(c)
        ensures Merged(dst, src).Some? && Text(Merged(dst, src).value, c) == Text(dst, c) + Text(src, c)
      {
        var cs := OpenAIKeyChoices(dst);
        var key := MergeKey(dst).value;
        assert forall i :: 0 <= i < |cs| ==> ChoiceKeyOf(cs[i]) == key.choices[i] && IndexesOf(dst)[i] == key.choices[i].index;
        MergeAppends(dst, src, c);
      }
    } else if HasPrefix(typ, "response.") {
      WitnessShape(typ, indexes, 0, "");
      WitnessShape(typ, indexes, 0, "x");
      MisroutedLoses(typ, indexes);
    } else {
      var i, j :| 0 <= i < j < |indexes| && indexes[i] == indexes[j];
      WitnessShape(typ, indexes, i, "");
      WitnessShape(typ, indexes, i, "x");
      DuplicateLoses(typ, indexes, i, j);
    }
  }
}
