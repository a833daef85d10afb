/** What a spill does to the text of the log: the writer starts anew in the middle of an
    event, and may merge the frame that ends that event with later ones. */
module SpillTheorems {
  import opened Sequences
  import opened Options
  import opened Bytes
  import opened Json
  import opened MergeKeys
  import opened Merge
  import opened Channels
  import opened MergeLaws
  import opened SseWire
  import opened JsonCodec
  import opened Coalescer
  import opened SseSuffixes
  import opened ChunkTheorems
  import opened SseTheorems
  import opened SpilledWrites

  // ----- a stream that goes on in the middle of an event

  /** The log of a stream t that goes on behind the bytes r of an event reads as the stream. */
  predicate ReadsAlike(cd: Codec, r: Bytes, t: Bytes, c: Channel)
    requires ValidChannel(c)
  {
    StreamText(cd, AllEvents(r + Compact(cd, t)), c) == StreamText(cd, AllEvents(r + t), c)
  }

  function Concat(evs: seq<Bytes>, text: Bytes -> string): string {
    if evs == [] then "" else Concat(evs[..|evs| - 1], text) + text(evs[|evs| - 1])
  }

  lemma {:induction false} ConcatAppend(a: seq<Bytes>, b: seq<Bytes>, text: Bytes -> string)
    ensures Concat(a + b, text) == Concat(a, text) + Concat(b, text)
  {
    if b == [] {
      assert a + b == a;
    } else {
      var n := |b| - 1;
      ConcatAppend(a, b[..n], text);
      assert (a + b)[..|a + b| - 1] == a + b[..n];
      Assoc(Concat(a, text), Concat(b[..n], text), text(b[n]));
    }
  }

  lemma {:induction false} StreamTextIs(cd: Codec, evs: seq<Bytes>, c: Channel)
    requires ValidChannel(c)
    ensures StreamText(cd, evs, c) == Concat(evs, e => EventText(cd, e, c))
  {
    if evs != [] { StreamTextIs(cd, evs[..|evs| - 1], c); }
  }

  lemma StreamTextJoins(cd: Codec, a: seq<Bytes>, b: seq<Bytes>, c: Channel)
    requires ValidChannel(c)
    ensures StreamText(cd, a + b, c) == StreamText(cd, a, c) + StreamText(cd, b, c)
  {
    StreamTextIs(cd, a, c);
    StreamTextIs(cd, b, c);
    StreamTextIs(cd, a + b, c);
    ConcatAppend(a, b, e => EventText(cd, e, c));
  }

  lemma TextOfOne(cd: Codec, e: Bytes, c: Channel)
    requires ValidChannel(c)
    ensures StreamText(cd, [e], c) == EventText(cd, e, c)
  {
    assert [e][..0] == [];
  }

  /** Whole lines without data in front of a stream change nothing about its text. */
  lemma SpaceInFront(cd: Codec, r: Bytes, t: Bytes, c: Channel)
    requires cd.Textual() && WholeLines(r) && JsonSpace(EventData(r)) && ValidChannel(c)
    ensures StreamText(cd, AllEvents(r + t), c) == StreamText(cd, AllEvents(t), c)
  {
    EventsBehind(r, t);
    if t == [] {
      assert cd.SpaceLaw(EventData(r), []);
      TextOfOne(cd, r, c);
    } else {
      var evs := AllEvents(t);
      SpaceBehind(cd, r, evs[0]);
      assert evs == [evs[0]] + evs[1..];
      StreamTextJoins(cd, [r + evs[0]], evs[1..], c);
      StreamTextJoins(cd, [evs[0]], evs[1..], c);
      TextOfOne(cd, evs[0], c);
      TextOfOne(cd, r + evs[0], c);
    }
  }

  lemma SpaceReadsAlike(cd: Codec, r: Bytes, t: Bytes, c: Channel)
    requires cd.Lawful() && cd.Textual() && WholeLines(r) && JsonSpace(EventData(r)) && ValidChannel(c)
    requires AllSafe(cd, AllEvents(t))
    ensures ReadsAlike(cd, r, t, c)
  {
    SpaceInFront(cd, r, t, c);
    SpaceInFront(cd, r, Compact(cd, t), c);
    TextPreserved(cd, t, c);
  }

  // ----- two deltas that spoil it

  const TEXT_DELTA: Fields := map["type" := Str("text_delta"), "text" := Str("x")]

  const DELTA: Fields := map["type" := Str("content_block_delta"), "delta" := Obj(TEXT_DELTA)]

  const BLOCK := Block(Scalar("0"), "text_delta")

  lemma DeltaIs()
    ensures MergeKey(DELTA) == Some(Anthropic(Scalar("0"), "text_delta")) && RouteOf(DELTA).AnthropicRoute?
    ensures Text(DELTA, BLOCK) == "x" && Merged(DELTA, DELTA).Some?
  {
    assert Get(DELTA, "delta") == Some(Obj(TEXT_DELTA));
    MergeKeepsKey(DELTA, DELTA);
  }

  function DeltaFrame(cd: Codec): Bytes {
    Frame([], cd.encode(DELTA))
  }

  function BothFrame(cd: Codec): Bytes {
    Frame([], cd.encode(Merged(DELTA, DELTA).GetOr(DELTA)))
  }

  lemma DeltaFrameIs(cd: Codec)
    requires cd.Lawful()
    ensures IsEvent(DeltaFrame(cd)) && Safe(cd, DeltaFrame(cd)) && EventText(cd, DeltaFrame(cd), BLOCK) == "x"
    ensures Classify(cd, DeltaFrame(cd)) == Some(Delta([], DELTA, Anthropic(Scalar("0"), "text_delta")))
  {
    DeltaIs();
    FrameReadsBack([], cd.encode(DELTA));
    FrameIsEvent([], cd.encode(DELTA));
  }

  /** An end of line, or none, and the two deltas. */
  function TwoDeltas(cd: Codec, pre: Bytes): Bytes {
    pre + DeltaFrame(cd) + DeltaFrame(cd)
  }

  function Before(pre: Bytes): seq<Bytes> {
    if pre == [] then [] else [pre]
  }

  lemma FlattenTwo(evs: seq<Bytes>, e: Bytes)
    ensures Flatten(evs + [e]) == Flatten(evs) + e
  {
    FlattenAppend(evs, [e]);
    FlattenOne(e);
  }

  function TwoDeltaEvents(cd: Codec, pre: Bytes): seq<Bytes> {
    Before(pre) + [DeltaFrame(cd)] + [DeltaFrame(cd)]
  }

  lemma TwoDeltasFlat(cd: Codec, pre: Bytes)
    ensures Flatten(TwoDeltaEvents(cd, pre)) == TwoDeltas(cd, pre)
  {
    var f := DeltaFrame(cd);
    FlattenOne(pre);
    FlattenTwo(Before(pre), f);
    FlattenTwo(Before(pre) + [f], f);
  }

  lemma TwoDeltaEventsAre(cd: Codec, pre: Bytes, e: Bytes)
    requires (pre == [] || pre == [LF]) && e in TwoDeltaEvents(cd, pre)
    ensures e == DeltaFrame(cd) || e == [LF]
  {
  }

  lemma TwoDeltasCut(cd: Codec, pre: Bytes)
    requires cd.Lawful() && (pre == [] || pre == [LF])
    ensures CutFrom(START, TwoDeltas(cd, pre)) == Cut(TwoDeltaEvents(cd, pre), [], [])
  {
    var evs := TwoDeltaEvents(cd, pre);
    DeltaFrameIs(cd);
    NewLineIsEvent();
    TwoDeltasFlat(cd, pre);
    forall i | 0 <= i < |evs| ensures IsEvent(evs[i]) { TwoDeltaEventsAre(cd, pre, evs[i]); }
    CutWholes(evs);
  }

  lemma NewLineIsEvent()
    ensures IsEvent([LF])
  {
    BlankEnds([]);
    assert [] + [LF] == [LF];
  }

  lemma NewLinePasses(cd: Codec)
    requires cd.Textual()
    ensures Classify(cd, [LF]).None? && Safe(cd, [LF])
  {
    var none: Bytes := [];
    assert cd.SpaceLaw(none, none);
    LineRead(none);
    assert none + [LF] == [LF] && TrimCR(none) == none;
  }

  lemma TwoDeltasSafe(cd: Codec, pre: Bytes)
    requires cd.Lawful() && cd.Textual() && (pre == [] || pre == [LF])
    ensures AllSafe(cd, AllEvents(TwoDeltas(cd, pre)))
  {
    var evs := TwoDeltaEvents(cd, pre);
    TwoDeltasCut(cd, pre);
    DeltaFrameIs(cd);
    NewLinePasses(cd);
    forall i | 0 <= i < |evs| ensures Safe(cd, evs[i]) { TwoDeltaEventsAre(cd, pre, evs[i]); }
  }

  lemma BeforePasses(cd: Codec, pre: Bytes)
    requires cd.Textual() && (pre == [] || pre == [LF])
    ensures HandledAll(cd, IDLE, Before(pre)) == Core(Before(pre), None)
  {
    NewLinePasses(cd);
    if pre != [] { HandledOne(cd, IDLE, pre); }
  }

  /** The first delta becomes pending, the second joins it. */
  lemma DeltasMerge(cd: Codec, out: seq<Bytes>)
    requires cd.Lawful()
    ensures Flushed(cd, Handled(cd, Handled(cd, Core(out, None), DeltaFrame(cd)), DeltaFrame(cd))).out == out + [BothFrame(cd)]
  {
    DeltaIs();
    DeltaFrameIs(cd);
    FrameNotEmpty([], cd.encode(Merged(DELTA, DELTA).value));
  }

  /** They are merged into one frame. */
  lemma TwoDeltasCompact(cd: Codec, pre: Bytes)
    requires cd.Lawful() && cd.Textual() && (pre == [] || pre == [LF])
    ensures Compact(cd, TwoDeltas(cd, pre)) == pre + BothFrame(cd)
  {
    TwoDeltasCut(cd, pre);
    TwoDeltasOut(cd, pre);
    FlattenOne(pre);
    FlattenTwo(Before(pre), BothFrame(cd));
  }

  lemma TwoDeltasOut(cd: Codec, pre: Bytes)
    requires cd.Lawful() && cd.Textual() && (pre == [] || pre == [LF])
    ensures OutEvents(cd, TwoDeltaEvents(cd, pre)) == Before(pre) + [BothFrame(cd)]
  {
    var f := DeltaFrame(cd);
    BeforePasses(cd, pre);
    HandledNext(cd, Before(pre), f);
    HandledNext(cd, Before(pre) + [f], f);
    DeltasMerge(cd, Before(pre));
  }

  lemma HandledNext(cd: Codec, evs: seq<Bytes>, e: Bytes)
    ensures HandledAll(cd, IDLE, evs + [e]) == Handled(cd, HandledAll(cd, IDLE, evs), e)
  {
    HandledAllAppend(cd, IDLE, evs, [e]);
    HandledOne(cd, HandledAll(cd, IDLE, evs), e);
  }

  lemma OneEvent(e: Bytes)
    requires IsEvent(e)
    ensures AllEvents(e) == [e]
  {
    FlattenOne(e);
    CutFlatten([e]);
  }

  lemma TwoEvents(e: Bytes, f: Bytes)
    requires IsEvent(e) && IsEvent(f)
    ensures AllEvents(e + f) == [e] + [f]
  {
    FlattenOne(e);
    FlattenTwo([e], f);
    CutFlatten([e] + [f]);
  }

  /** The first delta frame is lost in the event it ends; merged, so is the second. */
  lemma OneDeltaLost(cd: Codec, r: Bytes)
    requires cd.Lawful() && Open(r)
    requires cd.decode(EventData(r + DeltaFrame(cd))) == cd.decode(EventData(r + BothFrame(cd)))
    ensures StreamText(cd, AllEvents(r + BothFrame(cd)), BLOCK) == EventText(cd, r + DeltaFrame(cd), BLOCK)
    ensures StreamText(cd, AllEvents(r + DeltaFrame(cd) + DeltaFrame(cd)), BLOCK)
         == EventText(cd, r + DeltaFrame(cd), BLOCK) + "x"
  {
    var f, both := DeltaFrame(cd), BothFrame(cd);
    DeltaFrameIs(cd);
    FrameEnds(r, cd.encode(Merged(DELTA, DELTA).GetOr(DELTA)));
    FrameEnds(r, cd.encode(DELTA));
    OneEvent(r + both);
    TwoEvents(r + f, f);
    TextOfOne(cd, r + both, BLOCK);
    StreamTextAppend(cd, [r + f], f, BLOCK);
    TextOfOne(cd, r + f, BLOCK);
  }

  /** The end of line that puts the first delta frame on lines of its own, if one is needed
      for it to be spoiled. */
  function Lead(r: Bytes): Bytes {
    var carry := CutFrom(START, r).carry;
    if carry != [] && !BlankLine(carry) && !JsonSpace(EventData(r)) then [LF] else []
  }

  /** An event under way that data without white space may follow unnoticed. */
  predicate Resumable(r: Bytes) {
    CutFrom(START, r).carry == [] && JsonSpace(EventData(r))
  }

  lemma LeadSpoils(cd: Codec, r: Bytes)
    requires cd.Lawful() && cd.Textual() && r != [] && Open(r) && !Resumable(r)
    ensures Open(r + Lead(r))
    ensures cd.decode(EventData(r + Lead(r) + DeltaFrame(cd))) == cd.decode(EventData(r + Lead(r) + BothFrame(cd)))
  {
    var carry := CutFrom(START, r).carry;
    var m := Merged(DELTA, DELTA).GetOr(DELTA);
    CutKeepsBytes(r);
    assert r + [] == r;
    if carry != [] && (BlankLine(carry) || JsonSpace(EventData(r))) {
      LineSwallows(cd, r, DELTA, m);
    } else {
      if carry != [] { LineFinished(r); } else { assert Rest(CutFrom(START, r)) == CutFrom(START, r).acc; }
      DataSpoils(cd, r + Lead(r), DELTA);
      DataSpoils(cd, r + Lead(r), m);
    }
  }

  /** Behind any other bytes of an event two deltas are read as one too few. */
  lemma TwoDeltasLost(cd: Codec, r: Bytes)
    requires cd.Lawful() && cd.Textual() && r != [] && Open(r) && !Resumable(r)
    ensures AllSafe(cd, AllEvents(TwoDeltas(cd, Lead(r))))
    ensures !ReadsAlike(cd, r, TwoDeltas(cd, Lead(r)), BLOCK)
  {
    var f, pre := DeltaFrame(cd), Lead(r);
    TwoDeltasSafe(cd, pre);
    TwoDeltasCompact(cd, pre);
    LeadSpoils(cd, r);
    OneDeltaLost(cd, r + pre);
    Assoc(r, pre, BothFrame(cd));
    Assoc(r, pre + f, f);
    Assoc(r, pre, f);
  }

  /** A compacted stream behind a part of an event reads as the stream, whatever the stream,
      exactly if that part consists of whole lines and has no data but white space. */
  lemma ReadsAlikeExactly(cd: Codec, r: Bytes)
    requires cd.Lawful() && cd.Textual() && r != [] && Open(r)
    ensures (forall t, c :: AllSafe(cd, AllEvents(t)) && ValidChannel(c) ==> ReadsAlike(cd, r, t, c)) <==> Resumable(r)
  {
    if Resumable(r) {
      CutKeepsBytes(r);
      assert Rest(CutFrom(START, r)) == CutFrom(START, r).acc;
      forall t, c | AllSafe(cd, AllEvents(t)) && ValidChannel(c) ensures ReadsAlike(cd, r, t, c) {
        SpaceReadsAlike(cd, r, t, c);
      }
    } else {
      TwoDeltasLost(cd, r);
    }
  }

  // ----- the writer

  /** The log of these writes reads as what was written. */
  predicate LogReadsAlike(cd: Codec, chunks: seq<Bytes>, c: Channel)
    requires ValidChannel(c)
  {
    StreamText(cd, AllEvents(Transcript(cd, chunks)), c) == StreamText(cd, AllEvents(Flatten(chunks)), c)
  }

  /** The log reads as the stream however it goes on, up to the next spill. */
  ghost predicate NeverLosesAfter(cd: Codec, first: seq<Bytes>) {
    forall later, c ::
      !Spills(later) && AllSafe(cd, AllEvents(Flatten(later))) && ValidChannel(c) ==> LogReadsAlike(cd, first + later, c)
  }

  lemma WholeTextPreserved(cd: Codec, evs: seq<Bytes>, c: Channel)
    requires cd.Lawful() && AllEventsWhole(evs) && AllSafe(cd, evs) && ValidChannel(c)
    ensures AllEventsWhole(OutEvents(cd, evs))
    ensures StreamText(cd, OutEvents(cd, evs), c) == StreamText(cd, evs, c)
  {
    HandledAllWhole(cd, evs);
    FlushedWhole(cd, HandledAll(cd, IDLE, evs));
    assert [] !in evs by {
      forall i | 0 <= i < |evs| ensures evs[i] != [] { EventNotEmpty(evs[i]); }
    }
    HandledAllText(cd, evs, c);
    FlushedText(cd, HandledAll(cd, IDLE, evs), c);
  }

  lemma SameBehindText(a: string, b: string, c: string)
    ensures a + b == a + c <==> b == c
  {
    if a + b == a + c {
      assert (a + b)[|a|..] == b && (a + c)[|a|..] == c;
    }
  }

  /** A spilled log reads as its stream exactly if it does from the spilled event on. */
  lemma SpilledReadsAlike(cd: Codec, first: seq<Bytes>, later: seq<Bytes>, c: Channel)
    requires cd.Lawful() && FirstSpill(first) && !Spills(later) && ValidChannel(c)
    requires AllSafe(cd, CutFrom(START, Flatten(first)).events)
    ensures LogReadsAlike(cd, first + later, c)
       <==> ReadsAlike(cd, Rest(CutFrom(START, Flatten(first))), Flatten(later), c)
  {
    var s, t := Flatten(first), Flatten(later);
    var cut := CutFrom(START, s);
    var evs, r := cut.events, Rest(cut);
    var out := OutEvents(cd, evs);
    TranscriptSplits(cd, first, later);
    ChunksDoNotMatter(cd, later);
    FlattenAppend(first, later);
    CutKeepsBytes(s);
    CutIsWhole(s);
    WholeTextPreserved(cd, evs, c);
    Assoc(Flatten(out), r, Compact(cd, t));
    Assoc(Flatten(evs), r, t);
    EventsAfter(out, r + Compact(cd, t));
    EventsAfter(evs, r + t);
    StreamTextJoins(cd, out, AllEvents(r + Compact(cd, t)), c);
    StreamTextJoins(cd, evs, AllEvents(r + t), c);
    SameBehindText(StreamText(cd, evs, c), StreamText(cd, AllEvents(r + Compact(cd, t)), c), StreamText(cd, AllEvents(r + t), c));
  }

  lemma SpilledIsOpen(first: seq<Bytes>)
    requires FirstSpill(first)
    ensures var r := Rest(CutFrom(START, Flatten(first))); r != [] && Open(r)
  {
    CutIsWhole(Flatten(first));
  }

  /** After a write that spills the log goes on to read as the stream, whatever comes, exactly
      if the event it spilled had come to the end of a line and brought no data but white
      space. */
  lemma SpillLosesNothingExactly(cd: Codec, first: seq<Bytes>)
    requires cd.Lawful() && cd.Textual() && FirstSpill(first)
    requires AllSafe(cd, CutFrom(START, Flatten(first)).events)
    ensures NeverLosesAfter(cd, first) <==> Resumable(Rest(CutFrom(START, Flatten(first))))
  {
    var r := Rest(CutFrom(START, Flatten(first)));
    SpilledIsOpen(first);
    ReadsAlikeExactly(cd, r);
    if Resumable(r) {
      forall later, c | !Spills(later) && AllSafe(cd, AllEvents(Flatten(later))) && ValidChannel(c)
        ensures LogReadsAlike(cd, first + later, c)
      {
        SpilledReadsAlike(cd, first, later, c);
      }
    } else {
      SpillLosesText(cd, first);
    }
  }

  lemma SpillLosesText(cd: Codec, first: seq<Bytes>)
    requires cd.Lawful() && cd.Textual() && FirstSpill(first)
    requires AllSafe(cd, CutFrom(START, Flatten(first)).events)
    requires !Resumable(Rest(CutFrom(START, Flatten(first))))
    ensures !NeverLosesAfter(cd, first)
  {
    var r := Rest(CutFrom(START, Flatten(first)));
    SpilledIsOpen(first);
    TwoDeltasLost(cd, r);
    var later := [TwoDeltas(cd, Lead(r))];
    FlattenOne(later[0]);
    OneWriteHolds(cd, Lead(r));
    SpilledReadsAlike(cd, first, later, BLOCK);
    LosesAfter(cd, first, later, BLOCK);
  }

  lemma LosesAfter(cd: Codec, first: seq<Bytes>, later: seq<Bytes>, c: Channel)
    requires !Spills(later) && AllSafe(cd, AllEvents(Flatten(later))) && ValidChannel(c)
    requires !LogReadsAlike(cd, first + later, c)
    ensures !NeverLosesAfter(cd, first)
  {
  }

  lemma SpillsOne(p: Bytes)
    ensures !Spills([]) && (Spills([p]) <==> Over(p))
  {
    FlattenOne(p);
    assert [p][..0] == [] && [p][..1] == [p];
    assert Flatten([]) == [] && !Over([]);
  }

  lemma OneWriteHolds(cd: Codec, pre: Bytes)
    requires cd.Lawful() && (pre == [] || pre == [LF])
    ensures !Spills([TwoDeltas(cd, pre)])
  {
    SpillsOne(TwoDeltas(cd, pre));
    TwoDeltasCut(cd, pre);
  }

  /** In one write, a data line above the cap that is no white space; in the next, two deltas
      of one block. The stream has the second delta's text, the log none. */
  lemma LongLineLosesText(cd: Codec, x: Bytes)
    requires cd.Lawful() && cd.Textual() && OneLine(x) && !JsonSpace(x) && |x| >= MAX_MEDIUM_BLOB
    ensures var chunks := [FieldLine(DATA, x) + [LF], TwoDeltas(cd, [])];
      && StreamText(cd, AllEvents(Flatten(chunks)), BLOCK) == "x"
      && StreamText(cd, AllEvents(Transcript(cd, chunks)), BLOCK) == ""
  {
    var r := FieldLine(DATA, x) + [LF];
    var t, f, both := TwoDeltas(cd, []), DeltaFrame(cd), BothFrame(cd);
    LongLineSpills(x);
    LongLineData(x);
    LongLineWritten(cd, r);
    DataSpoils(cd, r, DELTA);
    DataSpoils(cd, r, Merged(DELTA, DELTA).GetOr(DELTA));
    OneDeltaLost(cd, r);
  }

  lemma LongLineWritten(cd: Codec, r: Bytes)
    requires cd.Lawful() && cd.Textual() && CutFrom(START, r) == Cut([], r, []) && FirstSpill([r])
    ensures var chunks := [r, TwoDeltas(cd, [])];
      && Flatten(chunks) == r + DeltaFrame(cd) + DeltaFrame(cd)
      && Transcript(cd, chunks) == r + BothFrame(cd)
  {
    var t := TwoDeltas(cd, []);
    assert [r] + [t] == [r, t];
    LongLineFlat(cd, r);
    FlattenOne(r);
    NothingBefore(cd, r);
    TranscriptSplits(cd, [r], [t]);
    DeltasAlone(cd);
  }

  lemma DeltasAlone(cd: Codec)
    requires cd.Lawful() && cd.Textual()
    ensures Transcript(cd, [TwoDeltas(cd, [])]) == BothFrame(cd)
  {
    var t := TwoDeltas(cd, []);
    FlattenOne(t);
    OneWriteHolds(cd, []);
    ChunksDoNotMatter(cd, [t]);
    TwoDeltasCompact(cd, []);
    assert [] + BothFrame(cd) == BothFrame(cd);
  }

  lemma NothingBefore(cd: Codec, r: Bytes)
    requires CutFrom(START, r) == Cut([], r, [])
    ensures SpilledBytes(cd, r) == r
  {
    assert OutEvents(cd, []) == [] && Flatten([]) + (r + []) == r;
  }

  lemma LongLineFlat(cd: Codec, r: Bytes)
    ensures Flatten([r] + [TwoDeltas(cd, [])]) == r + DeltaFrame(cd) + DeltaFrame(cd)
  {
    var f := DeltaFrame(cd);
    FlattenOne(r);
    FlattenTwo([r], TwoDeltas(cd, []));
    assert [] + f == f;
    Assoc(r, f, f);
  }

  lemma LongLineSpills(x: Bytes)
    requires OneLine(x) && |x| >= MAX_MEDIUM_BLOB
    ensures var r := FieldLine(DATA, x) + [LF]; CutFrom(START, r) == Cut([], r, []) && FirstSpill([r])
  {
    var line := FieldLine(DATA, x);
    var r := line + [LF];
    FieldLineNotBlank(DATA, x);
    LineJoins([], line);
    assert [] + r == r;
    FlattenOne(r);
    SpillsOne(r);
    assert [r][..0] == [];
    assert Rest(Cut([], r, [])) == r && |r| > |x|;
  }

  lemma LongLineData(x: Bytes)
    requires OneLine(x)
    ensures EventData(FieldLine(DATA, x) + [LF]) == x
  {
    FieldLineNotBlank(DATA, x);
    LineRead(FieldLine(DATA, x));
    FieldLineRead(DATA, x, NOTHING);
    assert NOTHING.parts + [x] == [x];
  }
}
