/** The token usage accumulator of usage.go, above JSON decoding. Counts are unbounded
    integers. */
module Usage {
  import opened Options
  import opened Bytes

  datatype Counts = Counts(input: int, output: int, cacheRead: int, cacheCreation: int, uncached: int, model: string)

  const ZERO := Counts(0, 0, 0, 0, 0, "")

  predicate Empty(u: Counts) {
    u.input == 0 && u.output == 0 && u.cacheRead == 0 && u.cacheCreation == 0 && u.uncached == 0
  }

  function Max0(n: int): int {
    if n < 0 then 0 else n
  }

  function Filled(u: Counts): Counts {
    if u.input == 0 then u else u.(uncached := Max0(u.input - u.cacheRead - u.cacheCreation))
  }

  function NonZero(a: int, b: int): int {
    if b != 0 then b else a
  }

  function NonEmpty(a: string, b: string): string {
    if b != "" then b else a
  }

  /** mergeUsage as one expression. */
  function MergedUsage(dst: Counts, src: Counts): Counts {
    if Empty(src) && src.model == "" then dst
    else
      var five := Counts(NonZero(dst.input, src.input), NonZero(dst.output, src.output),
        NonZero(dst.cacheRead, src.cacheRead), NonZero(dst.cacheCreation, src.cacheCreation),
        dst.uncached, NonEmpty(dst.model, src.model));
      if src.uncached != 0 then five.(uncached := src.uncached) else Filled(five)
  }

  class TokenUsage {
    var input: int
    var output: int
    var cacheRead: int
    var cacheCreation: int
    var uncached: int
    var model: string

    constructor ()
      ensures Value() == ZERO
    {
      input, output, cacheRead, cacheCreation, uncached, model := 0, 0, 0, 0, 0, "";
    }

    function Value(): Counts
      reads this
    {
      Counts(input, output, cacheRead, cacheCreation, uncached, model)
    }

    method FillUncached()
      modifies this`uncached
      ensures Value() == Filled(old(Value()))
    {
      if input == 0 {
        return;
      }
      var left := input - cacheRead - cacheCreation;
      if left < 0 {
        left := 0;
      }
      uncached := left;
    }

    method Merge(src: Counts)
      modifies this
      ensures Value() == MergedUsage(old(Value()), src)
    {
      if Empty(src) && src.model == "" {
        return;
      }
      if src.input != 0 {
        input := src.input;
      }
      if src.output != 0 {
        output := src.output;
      }
      if src.cacheRead != 0 {
        cacheRead := src.cacheRead;
      }
      if src.cacheCreation != 0 {
        cacheCreation := src.cacheCreation;
      }
      if src.model != "" {
        model := src.model;
      }
      if src.uncached != 0 {
        uncached := src.uncached;
      } else {
        FillUncached();
      }
    }
  }

  // ----- the fold over a stream

  function Folded(u: Counts, srcs: seq<Counts>): Counts {
    if srcs == [] then u else MergedUsage(Folded(u, srcs[..|srcs| - 1]), srcs[|srcs| - 1])
  }

  /** copySSE's usage: parse every scanned line, merge in order. */
  method FoldLines(parse: Bytes -> Counts, lines: seq<Bytes>) returns (u: Counts)
    ensures u == Folded(ZERO, seq(|lines|, i requires 0 <= i < |lines| => parse(lines[i])))
  {
    var acc := new TokenUsage();
    ghost var srcs := seq(|lines|, i requires 0 <= i < |lines| => parse(lines[i]));
    for i := 0 to |lines|
      invariant acc.Value() == Folded(ZERO, srcs[..i])
    {
      assert srcs[..i + 1][..i] == srcs[..i];
      acc.Merge(parse(lines[i]));
    }
    assert srcs[..|lines|] == srcs;
    u := acc.Value();
  }

  /** b's value at the last position where it is not skip, or else first. */
  function LastNot<T(==)>(first: T, skip: T, b: seq<T>): T {
    if b == [] then first
    else if b[|b| - 1] != skip then b[|b| - 1]
    else LastNot(first, skip, b[..|b| - 1])
  }

  function Column<T>(srcs: seq<Counts>, f: Counts -> T): (col: seq<T>)
    ensures |col| == |srcs|
    ensures forall i :: 0 <= i < |srcs| ==> col[i] == f(srcs[i])
  {
    seq(|srcs|, i requires 0 <= i < |srcs| => f(srcs[i]))
  }

  /** The five results that do not depend on grouping. */
  predicate SameFive(a: Counts, b: Counts) {
    && a.input == b.input && a.output == b.output && a.cacheRead == b.cacheRead
    && a.cacheCreation == b.cacheCreation && a.model == b.model
  }

  lemma ColumnPrefix<T>(srcs: seq<Counts>, f: Counts -> T)
    requires srcs != []
    ensures Column(srcs[..|srcs| - 1], f) == Column(srcs, f)[..|srcs| - 1]
  {
  }

  /** Input, Output, CacheRead, CacheCreation and the model are the last ones reported. */
  lemma {:induction false} FoldIsLastReported(u: Counts, srcs: seq<Counts>)
    ensures var r := Folded(u, srcs);
      && r.input == LastNot(u.input, 0, Column(srcs, (c: Counts) => c.input))
      && r.output == LastNot(u.output, 0, Column(srcs, (c: Counts) => c.output))
      && r.cacheRead == LastNot(u.cacheRead, 0, Column(srcs, (c: Counts) => c.cacheRead))
      && r.cacheCreation == LastNot(u.cacheCreation, 0, Column(srcs, (c: Counts) => c.cacheCreation))
      && r.model == LastNot(u.model, "", Column(srcs, (c: Counts) => c.model))
  {
    if srcs != [] {
      FoldIsLastReported(u, srcs[..|srcs| - 1]);
      ColumnPrefix(srcs, (c: Counts) => c.input);
      ColumnPrefix(srcs, (c: Counts) => c.output);
      ColumnPrefix(srcs, (c: Counts) => c.cacheRead);
      ColumnPrefix(srcs, (c: Counts) => c.cacheCreation);
      ColumnPrefix(srcs, (c: Counts) => c.model);
    }
  }

  /** Folding a block of lines on its own first gives the same five results. */
  lemma {:induction false} FoldRegroups(u: Counts, a: seq<Counts>, b: seq<Counts>)
    ensures SameFive(Folded(u, a + b), MergedUsage(Folded(u, a), Folded(ZERO, b)))
  {
    if b == [] {
      assert a + b == a;
    } else {
      var n := |b| - 1;
      FoldRegroups(u, a, b[..n]);
      assert (a + b)[..|a + b| - 1] == a + b[..n];
      MergeRegroups(Folded(u, a), Folded(ZERO, b[..n]), b[n]);
      MergeFive(Folded(u, a + b[..n]), MergedUsage(Folded(u, a), Folded(ZERO, b[..n])), b[n]);
    }
  }

  /** The five results one merge at a time. */
  lemma MergedFive(x: Counts, y: Counts)
    ensures var r := MergedUsage(x, y);
      && r.input == NonZero(x.input, y.input) && r.output == NonZero(x.output, y.output)
      && r.cacheRead == NonZero(x.cacheRead, y.cacheRead)
      && r.cacheCreation == NonZero(x.cacheCreation, y.cacheCreation) && r.model == NonEmpty(x.model, y.model)
  {
  }

  lemma MergeRegroups(x: Counts, y: Counts, z: Counts)
    ensures SameFive(MergedUsage(MergedUsage(x, y), z), MergedUsage(x, MergedUsage(y, z)))
  {
    MergedFive(x, y);
    MergedFive(MergedUsage(x, y), z);
    MergedFive(y, z);
    MergedFive(x, MergedUsage(y, z));
  }

  lemma MergeFive(x: Counts, y: Counts, z: Counts)
    requires SameFive(x, y)
    ensures SameFive(MergedUsage(x, z), MergedUsage(y, z))
  {
  }

  // ----- Uncached and grouping

  /** mergeUsage skips it. */
  predicate Skipped(u: Counts) {
    Empty(u) && u.model == ""
  }

  /** A line of the block reported something, and the last that did brought its own
      uncached count. */
  predicate EndsWithOwnUncached(b: seq<Counts>) {
    b != [] && if Skipped(b[|b| - 1]) then EndsWithOwnUncached(b[..|b| - 1]) else b[|b| - 1].uncached != 0
  }

  predicate Silent(b: seq<Counts>) {
    forall i :: 0 <= i < |b| ==> Skipped(b[i])
  }

  lemma {:induction false} FoldedAppend(u: Counts, a: seq<Counts>, b: seq<Counts>)
    ensures Folded(u, a + b) == Folded(Folded(u, a), b)
  {
    if b == [] {
      assert a + b == a;
    } else {
      FoldedAppend(u, a, b[..|b| - 1]);
      assert (a + b)[..|a + b| - 1] == a + b[..|b| - 1];
    }
  }

  lemma FoldedFive(x: Counts, b: seq<Counts>)
    ensures SameFive(Folded(x, b), MergedUsage(x, Folded(ZERO, b)))
    ensures Folded(x, b).input == NonZero(x.input, Folded(ZERO, b).input)
  {
    FoldRegroups(x, [], b);
    assert [] + b == b;
    MergedFive(x, Folded(ZERO, b));
  }

  lemma {:induction false} SilentFold(x: Counts, b: seq<Counts>)
    requires Silent(b)
    ensures Folded(x, b) == x && !EndsWithOwnUncached(b)
  {
    if b != [] { SilentFold(x, b[..|b| - 1]); }
  }

  /** What a block reports is not lost on the way. */
  lemma {:induction false} NotSilentFold(b: seq<Counts>)
    requires !Silent(b)
    ensures !Skipped(Folded(ZERO, b))
  {
    var before, last := b[..|b| - 1], b[|b| - 1];
    assert b == before + [last];
    MergedFive(Folded(ZERO, before), last);
    if !Silent(before) { NotSilentFold(before); } else { SilentFold(ZERO, before); }
  }

  /** Without any input, Uncached is the last one reported. */
  lemma {:induction false} UncachedWithoutInput(x: Counts, b: seq<Counts>)
    requires Folded(x, b).input == 0
    ensures Folded(x, b).uncached == NonZero(x.uncached, Folded(ZERO, b).uncached)
  {
    if b != [] {
      var before, last := b[..|b| - 1], b[|b| - 1];
      MergedFive(Folded(x, before), last);
      FoldedFive(x, before);
      MergedFive(Folded(ZERO, before), last);
      UncachedWithoutInput(x, before);
    }
  }

  /** With input, Uncached is the last line's own, or else what the cached parts leave. */
  lemma {:induction false} UncachedWithInput(x: Counts, b: seq<Counts>)
    requires Folded(x, b).input != 0 && !Silent(b) && !EndsWithOwnUncached(b)
    ensures Balanced(Folded(x, b))
  {
    var before, last := b[..|b| - 1], b[|b| - 1];
    assert b == before + [last];
    if Skipped(last) { UncachedWithInput(x, before); }
  }

  /** Whether a block of lines may be folded on its own before it is merged: it ends with an
      uncached count of its own, or has none at all, or there is no input, or its count is
      what the cached parts leave of the input anyway. */
  predicate MayGroup(x: Counts, b: seq<Counts>) {
    var c := Folded(ZERO, b);
    var input := NonZero(x.input, c.input);
    || EndsWithOwnUncached(b) || c.uncached == 0 || input == 0
    || c.uncached == Max0(input - NonZero(x.cacheRead, c.cacheRead) - NonZero(x.cacheCreation, c.cacheCreation))
  }

  lemma GroupedUncached(x: Counts, b: seq<Counts>)
    ensures Folded(x, b).uncached == MergedUsage(x, Folded(ZERO, b)).uncached <==> MayGroup(x, b)
  {
    var c := Folded(ZERO, b);
    FoldedFive(x, b);
    MergedFive(x, c);
    if Silent(b) {
      SilentFold(x, b);
      SilentFold(ZERO, b);
    } else {
      NotSilentFold(b);
      if EndsWithOwnUncached(b) { OwnUncached(x, b); }
      else if Folded(x, b).input == 0 { UncachedWithoutInput(x, b); }
      else { UncachedWithInput(x, b); }
    }
  }

  lemma {:induction false} OwnUncached(x: Counts, b: seq<Counts>)
    requires EndsWithOwnUncached(b)
    ensures Folded(x, b).uncached == Folded(ZERO, b).uncached != 0
  {
    if Skipped(b[|b| - 1]) { OwnUncached(x, b[..|b| - 1]); }
  }

  /** Folding a block of lines on its own first gives the same result, Uncached included,
      exactly if the block may be grouped. */
  lemma RegroupsExactly(u: Counts, a: seq<Counts>, b: seq<Counts>)
    ensures Folded(u, a + b) == MergedUsage(Folded(u, a), Folded(ZERO, b)) <==> MayGroup(Folded(u, a), b)
  {
    FoldRegroups(u, a, b);
    FoldedAppend(u, a, b);
    GroupedUncached(Folded(u, a), b);
  }

  // ----- one usage object

  /** usageFields; an absent *_details or cache_creation object is None. */
  datatype Reported = Reported(
    promptTokens: int, completionTokens: int, totalTokens: int, inputTokens: int, outputTokens: int,
    cachedTokens: int, cacheReadInputTokens: int, cacheCreationInputTokens: int,
    promptCacheHitTokens: int, promptCacheMissTokens: int, promptEvalCount: int, evalCount: int,
    imageTokens: int,
    promptDetailsCached: Option<int>, inputDetailsCached: Option<int>,
    cacheCreation: Option<(int, int)>)

  function OrElse(n: int, m: int): int {
    if n == 0 then m else n
  }

  function CacheReadOf(f: Reported): int {
    OrElse(f.cacheReadInputTokens,
      OrElse(f.promptCacheHitTokens,
        OrElse(f.promptDetailsCached.GetOr(0),
          OrElse(f.inputDetailsCached.GetOr(0), f.cachedTokens))))
  }

  function CacheCreationOf(f: Reported): int {
    OrElse(f.cacheCreationInputTokens,
      match f.cacheCreation case None => 0 case Some(c) => c.0 + c.1)
  }

  function OutputOf(f: Reported): int {
    OrElse(f.completionTokens, OrElse(f.outputTokens, f.evalCount))
  }

  function InputOf(f: Reported): int {
    var explicit := OrElse(f.promptTokens, f.inputTokens + f.cacheReadInputTokens + CacheCreationOf(f));
    var in0 := OrElse(explicit, f.promptEvalCount) + f.imageTokens;
    if in0 == 0 && f.totalTokens > 0 then Max0(f.totalTokens - OutputOf(f)) else in0
  }

  function AsTokenUsage(f: Reported): Counts {
    var u := Counts(InputOf(f), OutputOf(f), CacheReadOf(f), CacheCreationOf(f), f.promptCacheMissTokens, "");
    if u.uncached == 0 then Filled(u) else u
  }

  lemma FoldedTwo(u: Counts, a: Counts, b: Counts)
    ensures Folded(u, [a]) == MergedUsage(u, a) && Folded(u, [a, b]) == MergedUsage(MergedUsage(u, a), b)
  {
    assert [a, b][..1] == [a] && [a][..0] == [];
  }

  /** A usage object with one of three counts in it. */
  function Reporting(prompt: int, miss: int, completion: int): Reported {
    Reported(prompt, completion, 0, 0, 0, 0, 0, 0, 0, miss, 0, 0, 0, None, None, None)
  }

  lemma ReportingIs(prompt: int, miss: int, completion: int)
    ensures var f := Reporting(prompt, miss, completion);
      InputOf(f) == prompt && OutputOf(f) == completion && CacheReadOf(f) == 0 && CacheCreationOf(f) == 0
  {
  }

  lemma ReportingCounts(prompt: int, miss: int, completion: int)
    requires prompt >= 0
    ensures AsTokenUsage(Reporting(prompt, miss, completion)) ==
      Counts(prompt, completion, 0, 0, if miss != 0 then miss else prompt, "")
  {
    ReportingIs(prompt, miss, completion);
  }

  lemma ThreeCounts(n: int, m: int, k: int)
    requires n > 0 && m != 0 && k != 0
    ensures var p, q, c := Counts(n, 0, 0, 0, n, ""), Counts(0, 0, 0, 0, m, ""), Counts(0, k, 0, 0, 0, "");
      Folded(ZERO, [p] + [q, c]).uncached == n && MergedUsage(Folded(ZERO, [p]), Folded(ZERO, [q, c])).uncached == m
  {
    var p, q, c := Counts(n, 0, 0, 0, n, ""), Counts(0, 0, 0, 0, m, ""), Counts(0, k, 0, 0, 0, "");
    FoldedTwo(ZERO, p, p);
    FoldedTwo(ZERO, q, c);
    FoldedAppend(ZERO, [p], [q, c]);
    FoldedTwo(p, q, c);
  }

  /** Lines that do not regroup: prompt tokens, then a cache-miss count, then completion
      tokens. One by one they give n, the last two on their own first give m. */
  lemma UncachedDoesNotRegroup(n: int, m: int, k: int)
    requires n > 0 && m != 0 && k != 0
    ensures var a := [AsTokenUsage(Reporting(n, 0, 0))];
      var b := [AsTokenUsage(Reporting(0, m, 0)), AsTokenUsage(Reporting(0, 0, k))];
      Folded(ZERO, a + b).uncached == n && MergedUsage(Folded(ZERO, a), Folded(ZERO, b)).uncached == m
  {
    ReportingCounts(n, 0, 0);
    ReportingCounts(0, m, 0);
    ReportingCounts(0, 0, k);
    ThreeCounts(n, m, k);
  }

  predicate NonNegative(f: Reported) {
    && f.promptTokens >= 0 && f.completionTokens >= 0 && f.totalTokens >= 0 && f.inputTokens >= 0
    && f.outputTokens >= 0 && f.cachedTokens >= 0 && f.cacheReadInputTokens >= 0
    && f.cacheCreationInputTokens >= 0 && f.promptCacheHitTokens >= 0 && f.promptCacheMissTokens >= 0
    && f.promptEvalCount >= 0 && f.evalCount >= 0 && f.imageTokens >= 0
    && f.promptDetailsCached.GetOr(0) >= 0 && f.inputDetailsCached.GetOr(0) >= 0
    && (f.cacheCreation.Some? ==> f.cacheCreation.value.0 >= 0 && f.cacheCreation.value.1 >= 0)
  }

  /** Uncached is what the cached parts leave of the input. */
  predicate Balanced(u: Counts) {
    u.uncached == Max0(u.input - u.cacheRead - u.cacheCreation)
  }

  /** Without a reported cache-miss count, tokens are conserved. */
  lemma TokensConserved(f: Reported)
    requires NonNegative(f) && f.promptCacheMissTokens == 0
    ensures Balanced(AsTokenUsage(f))
  {
  }

  /** Anthropic's form: input_tokens excludes the cached tokens, and no other spelling of
      the input or of the cached tokens is present. */
  predicate AnthropicForm(f: Reported) {
    && f.promptTokens == 0 && f.imageTokens == 0 && f.promptCacheMissTokens == 0
    && f.promptCacheHitTokens == 0 && f.promptDetailsCached.GetOr(0) == 0
    && f.inputDetailsCached.GetOr(0) == 0 && f.cachedTokens == 0
  }

  lemma AnthropicUncachedIsInput(f: Reported)
    requires NonNegative(f) && AnthropicForm(f)
    requires f.inputTokens + f.cacheReadInputTokens + CacheCreationOf(f) != 0
    ensures AsTokenUsage(f).uncached == f.inputTokens
    ensures AsTokenUsage(f).input == AsTokenUsage(f).uncached + AsTokenUsage(f).cacheRead + AsTokenUsage(f).cacheCreation
  {
  }

  /** A usage object that reports output tokens and nothing else. */
  predicate OutputOnly(u: Counts) {
    u.output != 0 && u == ZERO.(output := u.output, model := u.model)
  }

  /** An output-only update leaves the uncached count alone exactly when it was balanced
      to begin with, or there is no input to balance against. */
  lemma OutputUpdateKeepsExactly(dst: Counts, src: Counts)
    requires OutputOnly(src)
    ensures var r := MergedUsage(dst, src);
      && r.input == dst.input && r.cacheRead == dst.cacheRead && r.cacheCreation == dst.cacheCreation
      && r.output == src.output
      && (r.uncached == dst.uncached <==> dst.input == 0 || Balanced(dst))
  {
  }

  /** Any number of output-only updates after a usage object without a miss count. */
  lemma {:induction false} OutputUpdatesKeep(f: Reported, updates: seq<Counts>)
    requires NonNegative(f) && f.promptCacheMissTokens == 0
    requires forall i :: 0 <= i < |updates| ==> OutputOnly(updates[i])
    ensures var u, r := AsTokenUsage(f), Folded(AsTokenUsage(f), updates);
      && r.input == u.input && r.cacheRead == u.cacheRead && r.cacheCreation == u.cacheCreation
      && r.uncached == u.uncached
  {
    TokensConserved(f);
    if updates != [] {
      OutputUpdatesKeep(f, updates[..|updates| - 1]);
      OutputUpdateKeepsExactly(Folded(AsTokenUsage(f), updates[..|updates| - 1]), updates[|updates| - 1]);
    }
  }

  /** Merging balanced counts stays balanced exactly when no cache count is carried over
      under an update that brings its own uncached count. */
  lemma MergeBalancedExactly(dst: Counts, src: Counts)
    requires Balanced(dst) && Balanced(src)
    requires dst.input >= 0 && dst.cacheRead >= 0 && dst.cacheCreation >= 0
    requires src.input >= 0 && src.cacheRead >= 0 && src.cacheCreation >= 0
    ensures Balanced(MergedUsage(dst, src)) <==>
      src.uncached == 0
      || ((src.cacheRead != 0 || dst.cacheRead == 0) && (src.cacheCreation != 0 || dst.cacheCreation == 0))
  {
  }

  /** Anthropic's usage with input_tokens and cache_read_input_tokens in it. */
  function ReportingCached(input: int, cached: int): Reported {
    Reported(0, 0, 0, input, 0, 0, cached, 0, 0, 0, 0, 0, 0, None, None, None)
  }

  lemma ReportingCachedCounts(input: int, cached: int)
    requires input >= 0 && cached >= 0
    ensures AsTokenUsage(ReportingCached(input, cached)) == Counts(input + cached, 0, cached, 0, input, "")
  {
    var f := ReportingCached(input, cached);
    assert CacheReadOf(f) == cached && CacheCreationOf(f) == 0 && OutputOf(f) == 0;
    assert InputOf(f) == input + cached;
  }

  /** Two balanced usage objects whose merge is not: the second repeats the input without the
      cached part, which is then carried over. */
  lemma CarriedCacheUnbalances(n: int, cached: int, m: int)
    requires n >= 0 && cached > 0 && m > 0
    ensures var a, b := AsTokenUsage(ReportingCached(n, cached)), AsTokenUsage(ReportingCached(m, 0));
      && Balanced(a) && Balanced(b) && !Balanced(MergedUsage(a, b))
      && MergedUsage(a, b) == Counts(m, 0, cached, 0, m, "")
  {
    ReportingCachedCounts(n, cached);
    ReportingCachedCounts(m, 0);
  }

  // ----- a whole body

  datatype Nested = Nested(model: string, usage: Option<Reported>)

  /** usageEnvelope, and the flat top-level fields if those decode. */
  datatype Envelope = Envelope(
    flat: Option<Reported>, message: Option<Nested>, response: Option<Nested>, model: string, usage: Option<Reported>)

  function NestedMerged(u: Counts, nested: Option<Nested>): Counts {
    match nested
    case None => u
    case Some(n) =>
      var named := u.(model := NonEmpty(u.model, n.model));
      match n.usage
      case None => named
      case Some(f) => MergedUsage(named, AsTokenUsage(f).(model := named.model))
  }

  method MergeNested(out: TokenUsage, nested: Option<Nested>)
    modifies out
    ensures out.Value() == NestedMerged(old(out.Value()), nested)
  {
    if nested.None? {
      return;
    }
    var n := nested.value;
    if n.model != "" {
      out.model := n.model;
    }
    if n.usage.Some? {
      var u := AsTokenUsage(n.usage.value);
      u := u.(model := n.model);
      if u.model == "" {
        u := u.(model := out.model);
      }
      out.Merge(u);
    }
  }

  /** parseUsageJSON on a body that decodes. */
  function Parsed(env: Envelope): Counts {
    var flat := match env.flat case None => ZERO case Some(f) => MergedUsage(ZERO, AsTokenUsage(f));
    var nested := NestedMerged(NestedMerged(flat, env.message), env.response);
    var named := nested.(model := NonEmpty(nested.model, env.model));
    match env.usage
    case None => named
    case Some(f) => MergedUsage(named, AsTokenUsage(f))
  }

  method ParseUsage(env: Envelope) returns (u: Counts)
    ensures u == Parsed(env)
  {
    var out := new TokenUsage();
    if env.flat.Some? {
      out.Merge(AsTokenUsage(env.flat.value));
    }
    MergeNested(out, env.message);
    MergeNested(out, env.response);
    if env.model != "" {
      out.model := env.model;
    }
    if env.usage.Some? {
      out.Merge(AsTokenUsage(env.usage.value));
    }
    u := out.Value();
  }

  function CountsOf(f: Option<Reported>): Counts {
    match f case None => ZERO case Some(r) => AsTokenUsage(r)
  }

  function NestedUsage(n: Option<Nested>): Option<Reported> {
    match n case None => None case Some(v) => v.usage
  }

  /** The four places a body can report usage in, in the order the last one wins. */
  function Places(env: Envelope): seq<Counts> {
    [CountsOf(env.flat), CountsOf(NestedUsage(env.message)), CountsOf(NestedUsage(env.response)), CountsOf(env.usage)]
  }

  /** The four counts of b over those of a. */
  predicate Overlaid(r: Counts, a: Counts, b: Counts) {
    && r.input == NonZero(a.input, b.input) && r.output == NonZero(a.output, b.output)
    && r.cacheRead == NonZero(a.cacheRead, b.cacheRead) && r.cacheCreation == NonZero(a.cacheCreation, b.cacheCreation)
  }

  lemma MergeOverlays(dst: Counts, src: Counts)
    ensures Overlaid(MergedUsage(dst, src), dst, src)
    ensures MergedUsage(dst, src).model == NonEmpty(dst.model, src.model)
  {
  }

  function NameOf(n: Option<Nested>): string {
    match n case None => "" case Some(v) => v.model
  }

  lemma NestedOverlays(u: Counts, n: Option<Nested>)
    ensures Overlaid(NestedMerged(u, n), u, CountsOf(NestedUsage(n)))
    ensures NestedMerged(u, n).model == NonEmpty(u.model, NameOf(n))
  {
    if n.Some? && n.value.usage.Some? {
      var named := u.(model := NonEmpty(u.model, n.value.model));
      MergeOverlays(named, AsTokenUsage(n.value.usage.value).(model := named.model));
    }
  }

  lemma ParsedOverlays(env: Envelope) returns (x: Counts, y: Counts, z: Counts)
    ensures Overlaid(x, ZERO, CountsOf(env.flat)) && x.model == ""
    ensures Overlaid(y, x, CountsOf(NestedUsage(env.message))) && y.model == NonEmpty(x.model, NameOf(env.message))
    ensures Overlaid(z, y, CountsOf(NestedUsage(env.response))) && z.model == NonEmpty(y.model, NameOf(env.response))
    ensures Overlaid(Parsed(env), z, CountsOf(env.usage)) && Parsed(env).model == NonEmpty(z.model, env.model)
  {
    x := if env.flat.Some? then MergedUsage(ZERO, AsTokenUsage(env.flat.value)) else ZERO;
    if env.flat.Some? { MergeOverlays(ZERO, AsTokenUsage(env.flat.value)); }
    y := NestedMerged(x, env.message);
    NestedOverlays(x, env.message);
    z := NestedMerged(y, env.response);
    NestedOverlays(y, env.response);
    if env.usage.Some? { MergeOverlays(z.(model := NonEmpty(z.model, env.model)), AsTokenUsage(env.usage.value)); }
  }

  /** Whatever the protocol, each count is the last non-zero one of the four places, and
      the model the last one named. */
  lemma ParsedIsLastPlace(env: Envelope)
    ensures var r := Parsed(env);
      && r.input == LastNot(0, 0, Column(Places(env), (c: Counts) => c.input))
      && r.output == LastNot(0, 0, Column(Places(env), (c: Counts) => c.output))
      && r.cacheRead == LastNot(0, 0, Column(Places(env), (c: Counts) => c.cacheRead))
      && r.cacheCreation == LastNot(0, 0, Column(Places(env), (c: Counts) => c.cacheCreation))
      && r.model == LastNot("", "", [NameOf(env.message), NameOf(env.response), env.model])
  {
    var x, y, z := ParsedOverlays(env);
    LastNotOfFour(Column(Places(env), (c: Counts) => c.input), 0);
    LastNotOfFour(Column(Places(env), (c: Counts) => c.output), 0);
    LastNotOfFour(Column(Places(env), (c: Counts) => c.cacheRead), 0);
    LastNotOfFour(Column(Places(env), (c: Counts) => c.cacheCreation), 0);
    LastNotOfThree([NameOf(env.message), NameOf(env.response), env.model], "");
  }

  lemma LastNotAppend<T>(b: seq<T>, last: T, skip: T)
    ensures LastNot(skip, skip, b + [last]) == if last != skip then last else LastNot(skip, skip, b)
  {
    assert (b + [last])[..|b|] == b;
  }

  lemma LastNotOfThree<T>(b: seq<T>, skip: T)
    requires |b| == 3
    ensures LastNot(skip, skip, b) == if b[2] != skip then b[2] else if b[1] != skip then b[1] else b[0]
  {
    LastNotAppend([], b[0], skip);
    LastNotAppend([b[0]], b[1], skip);
    LastNotAppend([b[0], b[1]], b[2], skip);
    assert [] + [b[0]] == [b[0]] && [b[0]] + [b[1]] == [b[0], b[1]] && [b[0], b[1]] + [b[2]] == b;
  }

  lemma LastNotOfFour<T>(b: seq<T>, skip: T)
    requires |b| == 4
    ensures LastNot(skip, skip, b)
         == if b[3] != skip then b[3] else if b[2] != skip then b[2] else if b[1] != skip then b[1] else b[0]
  {
    LastNotOfThree(b[..3], skip);
    LastNotAppend(b[..3], b[3], skip);
    assert b[..3] + [b[3]] == b;
  }
}
