/** Main results about the compacted transcript: it cuts into exactly the written
    events, every channel reads the same, compacting again changes nothing, and the
    output is one event per maximal run of same-key events. */
module SseTheorems {
  import opened Sequences
  import opened Options
  import opened Bytes
  import opened Json
  import opened MergeKeys
  import opened Merge
  import opened Channels
  import opened MergeLaws
  import opened MergeTheorems
  import opened SseWire
  import opened JsonCodec
  import opened Coalescer

  /** An event whose merge cannot lose text: the exact condition of LosslessExactly. */
  predicate Safe(cd: Codec, raw: Bytes) {
    match Classify(cd, raw)
    case None => true
    case Some(item) => RoutedAlike(item.obj) && DistinctIndexes(item.key)
  }

  predicate AllSafe(cd: Codec, evs: seq<Bytes>) {
    forall i :: 0 <= i < |evs| ==> Safe(cd, evs[i])
  }

  // ----- the pending event

  ghost predicate PendingOk(cd: Codec, p: Pending) {
    && MergeKey(p.obj) == Some(p.key)
    && RoutedAlike(p.obj) && DistinctIndexes(p.key)
    && OneLine(p.event)
    && (!p.merged ==> Classify(cd, p.raw) == Some(Delta(p.event, p.obj, p.key)) && cd.decode(EventData(p.raw)) == Some(p.obj))
  }

  /** What is written for the pending event reads back as the pending event. */
  lemma PendingReadsBack(cd: Codec, p: Pending)
    requires cd.Lawful() && PendingOk(cd, p)
    ensures Classify(cd, PendingBytes(cd, p)) == Some(Delta(p.event, p.obj, p.key))
    ensures cd.decode(EventData(PendingBytes(cd, p))) == Some(p.obj)
    ensures p.merged ==> IsEvent(PendingBytes(cd, p))
  {
    if p.merged {
      FrameReadsBack(p.event, cd.encode(p.obj));
      FrameIsEvent(p.event, cd.encode(p.obj));
    }
  }

  lemma StartedOk(cd: Codec, raw: Bytes)
    requires Classify(cd, raw).Some? && Safe(cd, raw)
    ensures var item := Classify(cd, raw).value;
      PendingOk(cd, Pending(raw, item.event, item.obj, item.key, false))
  {
    EventNameClean(raw);
  }

  // ----- the written events are the output's events

  /** Everything written so far is whole events, none empty. */
  ghost predicate Whole(cd: Codec, core: Core) {
    && AllEventsWhole(core.out)
    && (core.pending.Some? ==> PendingOk(cd, core.pending.value))
    && (core.pending.Some? && !core.pending.value.merged ==> IsEvent(core.pending.value.raw))
  }

  lemma EventNotEmpty(e: Bytes)
    requires IsEvent(e) || IsOpen(e)
    ensures e != []
  {
  }

  lemma FlushedWhole(cd: Codec, core: Core)
    requires cd.Lawful() && Whole(cd, core)
    ensures AllEventsWhole(Flushed(cd, core).out)
    ensures core.pending.Some? ==> Flushed(cd, core).out == core.out + [PendingBytes(cd, core.pending.value)]
  {
    if core.pending.Some? {
      PendingReadsBack(cd, core.pending.value);
      EventNotEmpty(PendingBytes(cd, core.pending.value));
    }
  }

  /** A safe event that meets its own key is merged, never refused. */
  lemma SafeJoins(cd: Codec, p: Pending, raw: Bytes)
    requires PendingOk(cd, p) && Safe(cd, raw)
    requires Classify(cd, raw).Some? && Classify(cd, raw).value.key == p.key
    ensures var merged := Merged(p.obj, Classify(cd, raw).value.obj);
      merged.Some? && PendingOk(cd, p.(obj := merged.value, merged := true))
  {
    MergeKeepsKey(p.obj, Classify(cd, raw).value.obj);
  }

  lemma HandledWhole(cd: Codec, core: Core, raw: Bytes)
    requires cd.Lawful() && Whole(cd, core) && IsEvent(raw) && Safe(cd, raw)
    ensures Whole(cd, Handled(cd, core, raw))
  {
    FlushedWhole(cd, core);
    EventNotEmpty(raw);
    if Classify(cd, raw).Some? {
      StartedOk(cd, raw);
      if core.pending.Some? && core.pending.value.key == Classify(cd, raw).value.key {
        SafeJoins(cd, core.pending.value, raw);
      }
    }
  }

  lemma {:induction false} HandledAllWhole(cd: Codec, evs: seq<Bytes>)
    requires cd.Lawful() && AllEventsWhole(evs) && AllSafe(cd, evs)
    ensures Whole(cd, HandledAll(cd, IDLE, evs))
  {
    if evs != [] {
      HandledAllWhole(cd, evs[..|evs| - 1]);
      HandledWhole(cd, HandledAll(cd, IDLE, evs[..|evs| - 1]), evs[|evs| - 1]);
    }
  }

  lemma LastWellCut(cd: Codec, core: Core, raw: Bytes)
    requires cd.Lawful() && Whole(cd, core) && Safe(cd, raw) && (IsEvent(raw) || IsOpen(raw))
    ensures WellCut(Flushed(cd, Handled(cd, core, raw)).out)
  {
    FlushedWhole(cd, core);
    EventNotEmpty(raw);
    var item := Classify(cd, raw);
    if item.None? {
      assert (Flushed(cd, core).out + [raw])[..|Flushed(cd, core).out|] == Flushed(cd, core).out;
    } else {
      StartedOk(cd, raw);
      if core.pending.Some? && core.pending.value.key == item.value.key {
        SafeJoins(cd, core.pending.value, raw);
        FlushedWhole(cd, Handled(cd, core, raw));
      } else {
        assert (Flushed(cd, core).out + [raw])[..|Flushed(cd, core).out|] == Flushed(cd, core).out;
      }
    }
  }

  lemma OutEventsWellCut(cd: Codec, evs: seq<Bytes>)
    requires cd.Lawful() && WellCut(evs) && AllSafe(cd, evs)
    ensures WellCut(OutEvents(cd, evs))
  {
    if evs != [] {
      HandledAllWhole(cd, evs[..|evs| - 1]);
      LastWellCut(cd, HandledAll(cd, IDLE, evs[..|evs| - 1]), evs[|evs| - 1]);
    }
  }

  /** Cutting the compacted bytes gives back exactly the events written. */
  lemma CompactCuts(cd: Codec, s: Bytes)
    requires cd.Lawful() && AllSafe(cd, AllEvents(s))
    ensures AllEvents(Compact(cd, s)) == OutEvents(cd, AllEvents(s))
  {
    AllEventsWellCut(s);
    OutEventsWellCut(cd, AllEvents(s));
    CutFlatten(OutEvents(cd, AllEvents(s)));
  }

  // ----- text is preserved

  /** The text a raw event adds to a channel. */
  function EventText(cd: Codec, raw: Bytes, c: Channel): string
    requires ValidChannel(c)
  {
    match cd.decode(EventData(raw))
    case None => ""
    case Some(obj) => Text(obj, c)
  }

  function StreamText(cd: Codec, evs: seq<Bytes>, c: Channel): string
    requires ValidChannel(c)
  {
    if evs == [] then "" else StreamText(cd, evs[..|evs| - 1], c) + EventText(cd, evs[|evs| - 1], c)
  }

  function CoreText(cd: Codec, core: Core, c: Channel): string
    requires ValidChannel(c)
  {
    StreamText(cd, core.out, c) + if core.pending.Some? then Text(core.pending.value.obj, c) else ""
  }

  ghost predicate CoreOk(cd: Codec, core: Core) {
    core.pending.Some? ==> PendingOk(cd, core.pending.value) && PendingBytes(cd, core.pending.value) != []
  }

  lemma StreamTextAppend(cd: Codec, evs: seq<Bytes>, raw: Bytes, c: Channel)
    requires ValidChannel(c)
    ensures StreamText(cd, evs + [raw], c) == StreamText(cd, evs, c) + EventText(cd, raw, c)
  {
    assert (evs + [raw])[..|evs|] == evs;
  }

  lemma FlushedText(cd: Codec, core: Core, c: Channel)
    requires cd.Lawful() && CoreOk(cd, core) && ValidChannel(c)
    ensures StreamText(cd, Flushed(cd, core).out, c) == CoreText(cd, core, c)
  {
    if core.pending.Some? {
      PendingReadsBack(cd, core.pending.value);
      StreamTextAppend(cd, core.out, PendingBytes(cd, core.pending.value), c);
    }
  }

  lemma FrameNotEmpty(name: Bytes, json: Bytes)
    ensures Frame(name, json) != []
  {
    assert Frame(name, json)[|Frame(name, json)| - 1] == LF;
  }

  lemma EventTextOf(cd: Codec, raw: Bytes, c: Channel)
    requires Classify(cd, raw).Some? && ValidChannel(c)
    ensures EventText(cd, raw, c) == Text(Classify(cd, raw).value.obj, c)
  {
  }

  /** The pending event after a safe event with its key has joined it. */
  lemma Joined(cd: Codec, core: Core, raw: Bytes) returns (q: Pending)
    requires cd.Lawful() && CoreOk(cd, core) && Safe(cd, raw)
    requires Classify(cd, raw).Some? && core.pending.Some? && core.pending.value.key == Classify(cd, raw).value.key
    ensures Merged(core.pending.value.obj, Classify(cd, raw).value.obj) == Some(q.obj)
    ensures q.merged && q.key == core.pending.value.key
    ensures Handled(cd, core, raw) == Core(core.out, Some(q)) && CoreOk(cd, Core(core.out, Some(q)))
  {
    var p, obj := core.pending.value, Classify(cd, raw).value.obj;
    SafeJoins(cd, p, raw);
    q := p.(obj := Merged(p.obj, obj).value, merged := true);
    FrameNotEmpty(q.event, cd.encode(q.obj));
  }

  lemma JoinedText(cd: Codec, core: Core, raw: Bytes, c: Channel)
    requires cd.Lawful() && CoreOk(cd, core) && Safe(cd, raw) && ValidChannel(c)
    requires Classify(cd, raw).Some? && core.pending.Some? && core.pending.value.key == Classify(cd, raw).value.key
    ensures CoreOk(cd, Handled(cd, core, raw))
    ensures CoreText(cd, Handled(cd, core, raw), c) == CoreText(cd, core, c) + EventText(cd, raw, c)
  {
    var q := Joined(cd, core, raw);
    var a, b := core.pending.value.obj, Classify(cd, raw).value.obj;
    EventTextOf(cd, raw, c);
    JoinedObjText(a, b, q.obj, c);
    Assoc(StreamText(cd, core.out, c), Text(a, c), Text(b, c));
  }

  lemma JoinedObjText(dst: Fields, src: Fields, q: Fields, c: Channel)
    requires SameKey(dst, src) && RoutedAlike(dst) && DistinctIndexes(MergeKey(dst).value) && ValidChannel(c)
    requires Merged(dst, src) == Some(q)
    ensures Text(q, c) == Text(dst, c) + Text(src, c)
  {
    MergeAppends(dst, src, c);
  }

  lemma StartedText(cd: Codec, core: Core, raw: Bytes, c: Channel)
    requires cd.Lawful() && CoreOk(cd, core) && Safe(cd, raw) && raw != [] && ValidChannel(c)
    requires Classify(cd, raw).Some?
    ensures CoreOk(cd, Started(cd, core, raw, Classify(cd, raw).value))
    ensures CoreText(cd, Started(cd, core, raw, Classify(cd, raw).value), c)
         == CoreText(cd, core, c) + EventText(cd, raw, c)
  {
    StartedOk(cd, raw);
    FlushedText(cd, core, c);
  }

  lemma HandledText(cd: Codec, core: Core, raw: Bytes, c: Channel)
    requires cd.Lawful() && CoreOk(cd, core) && Safe(cd, raw) && raw != [] && ValidChannel(c)
    ensures CoreOk(cd, Handled(cd, core, raw))
    ensures CoreText(cd, Handled(cd, core, raw), c) == CoreText(cd, core, c) + EventText(cd, raw, c)
  {
    var item := Classify(cd, raw);
    if item.None? {
      FlushedText(cd, core, c);
      StreamTextAppend(cd, Flushed(cd, core).out, raw, c);
    } else if core.pending.Some? && core.pending.value.key == item.value.key {
      JoinedText(cd, core, raw, c);
    } else {
      StartedText(cd, core, raw, c);
    }
  }

  lemma {:induction false} HandledAllText(cd: Codec, evs: seq<Bytes>, c: Channel)
    requires cd.Lawful() && AllSafe(cd, evs) && [] !in evs && ValidChannel(c)
    ensures CoreOk(cd, HandledAll(cd, IDLE, evs))
    ensures CoreText(cd, HandledAll(cd, IDLE, evs), c) == StreamText(cd, evs, c)
  {
    if evs != [] {
      HandledAllText(cd, evs[..|evs| - 1], c);
      HandledText(cd, HandledAll(cd, IDLE, evs[..|evs| - 1]), evs[|evs| - 1], c);
    }
  }

  lemma WellCutNotEmpty(evs: seq<Bytes>)
    requires WellCut(evs)
    ensures [] !in evs
  {
    if [] in evs {
      var i :| 0 <= i < |evs| && evs[i] == [];
      if i < |evs| - 1 { assert evs[..|evs| - 1][i] == []; }
      EventNotEmpty(evs[i]);
    }
  }

  /** Coalescing preserves meaning: every channel of every stream of safe events reads
      the same in the compacted bytes as in the original bytes. */
  lemma TextPreserved(cd: Codec, s: Bytes, c: Channel)
    requires cd.Lawful() && AllSafe(cd, AllEvents(s)) && ValidChannel(c)
    ensures StreamText(cd, AllEvents(Compact(cd, s)), c) == StreamText(cd, AllEvents(s), c)
  {
    CompactCuts(cd, s);
    AllEventsWellCut(s);
    WellCutNotEmpty(AllEvents(s));
    HandledAllText(cd, AllEvents(s), c);
    FlushedText(cd, HandledAll(cd, IDLE, AllEvents(s)), c);
  }

  // ----- idempotence

  function KeyOf(cd: Codec, raw: Bytes): Option<Key> {
    match Classify(cd, raw)
    case None => None
    case Some(item) => Some(item.key)
  }

  predicate Apart(cd: Codec, a: Bytes, b: Bytes) {
    KeyOf(cd, a).None? || KeyOf(cd, a) != KeyOf(cd, b)
  }

  /** No event could join the one before it. */
  predicate Settled(cd: Codec, evs: seq<Bytes>) {
    forall i :: 0 < i < |evs| ==> Apart(cd, evs[i - 1], evs[i])
  }

  /** The events as they would be written if the pending one were flushed now. */
  function Shown(cd: Codec, core: Core): seq<Bytes> {
    Flushed(cd, core).out
  }

  /** The last event shown carries the pending key, or none. */
  ghost predicate Edge(cd: Codec, core: Core) {
    core.pending.None? ==> core.out == [] || KeyOf(cd, core.out[|core.out| - 1]).None?
  }

  lemma ShownEdge(cd: Codec, core: Core)
    requires cd.Lawful() && CoreOk(cd, core) && Edge(cd, core) && Shown(cd, core) != []
    ensures KeyOf(cd, Shown(cd, core)[|Shown(cd, core)| - 1])
         == if core.pending.Some? then Some(core.pending.value.key) else None
  {
    if core.pending.Some? { PendingReadsBack(cd, core.pending.value); }
  }

  lemma JoinedSettled(cd: Codec, core: Core, raw: Bytes)
    requires cd.Lawful() && CoreOk(cd, core) && Safe(cd, raw)
    requires Settled(cd, Shown(cd, core))
    requires Classify(cd, raw).Some? && core.pending.Some? && core.pending.value.key == Classify(cd, raw).value.key
    ensures Settled(cd, Shown(cd, Handled(cd, core, raw)))
  {
    var p := core.pending.value;
    var q := Joined(cd, core, raw);
    PendingReadsBack(cd, p);
    PendingReadsBack(cd, q);
    var before, after := Shown(cd, core), Shown(cd, Handled(cd, core, raw));
    assert before == core.out + [PendingBytes(cd, p)] && after == core.out + [PendingBytes(cd, q)];
    forall i | 0 < i < |after| ensures Apart(cd, after[i - 1], after[i]) {
      assert Apart(cd, before[i - 1], before[i]);
    }
  }

  /** An event that does not join is shown after what was shown. */
  lemma AppendedSettled(cd: Codec, core: Core, raw: Bytes)
    requires cd.Lawful() && CoreOk(cd, core) && raw != []
    requires Settled(cd, Shown(cd, core)) && Edge(cd, core)
    requires Classify(cd, raw).Some? && core.pending.Some? ==> core.pending.value.key != Classify(cd, raw).value.key
    ensures Settled(cd, Shown(cd, core) + [raw])
  {
    if Shown(cd, core) != [] { ShownEdge(cd, core); }
  }

  lemma HandledSettled(cd: Codec, core: Core, raw: Bytes)
    requires cd.Lawful() && CoreOk(cd, core) && Safe(cd, raw) && raw != []
    requires Settled(cd, Shown(cd, core)) && Edge(cd, core)
    ensures Settled(cd, Shown(cd, Handled(cd, core, raw))) && Edge(cd, Handled(cd, core, raw))
  {
    var item := Classify(cd, raw);
    if item.Some? && core.pending.Some? && core.pending.value.key == item.value.key {
      JoinedSettled(cd, core, raw);
      SafeJoins(cd, core.pending.value, raw);
    } else {
      AppendedSettled(cd, core, raw);
      assert Shown(cd, Handled(cd, core, raw)) == Shown(cd, core) + [raw];
    }
  }

  lemma {:induction false} HandledAllSettled(cd: Codec, evs: seq<Bytes>)
    requires cd.Lawful() && AllSafe(cd, evs) && [] !in evs
    ensures var core := HandledAll(cd, IDLE, evs);
      CoreOk(cd, core) && Settled(cd, Shown(cd, core)) && Edge(cd, core)
  {
    if evs != [] {
      var n := |evs| - 1;
      HandledAllSettled(cd, evs[..n]);
      HandledText(cd, HandledAll(cd, IDLE, evs[..n]), evs[n], Block(Null, ""));
      HandledSettled(cd, HandledAll(cd, IDLE, evs[..n]), evs[n]);
    }
  }

  /** Nothing is merged so far: the events shown are the events given. */
  predicate Untouched(cd: Codec, core: Core, evs: seq<Bytes>) {
    && Shown(cd, core) == evs
    && (core.pending.Some? ==> evs != [] && KeyOf(cd, evs[|evs| - 1]) == Some(core.pending.value.key))
  }

  lemma SettledStep(cd: Codec, core: Core, evs: seq<Bytes>, raw: Bytes)
    requires Untouched(cd, core, evs) && raw != []
    requires evs != [] ==> Apart(cd, evs[|evs| - 1], raw)
    ensures Untouched(cd, Handled(cd, core, raw), evs + [raw])
  {
    var item := Classify(cd, raw);
    if item.Some? {
      assert Handled(cd, core, raw) == Started(cd, core, raw, item.value);
    }
  }

  /** Settled events pass through untouched. */
  lemma {:induction false} SettledPasses(cd: Codec, evs: seq<Bytes>)
    requires Settled(cd, evs) && [] !in evs
    ensures Untouched(cd, HandledAll(cd, IDLE, evs), evs)
  {
    if evs != [] {
      var n := |evs| - 1;
      SettledPasses(cd, evs[..n]);
      assert n > 0 ==> Apart(cd, evs[n - 1], evs[n]);
      SettledStep(cd, HandledAll(cd, IDLE, evs[..n]), evs[..n], evs[n]);
      assert evs == evs[..n] + [evs[n]];
    }
  }

  /** Compacting a compacted transcript returns it byte for byte. */
  lemma CompactIdempotent(cd: Codec, s: Bytes)
    requires cd.Lawful() && AllSafe(cd, AllEvents(s))
    ensures Compact(cd, Compact(cd, s)) == Compact(cd, s)
  {
    CompactCuts(cd, s);
    AllEventsWellCut(s);
    OutEventsWellCut(cd, AllEvents(s));
    WellCutNotEmpty(AllEvents(s));
    WellCutNotEmpty(OutEvents(cd, AllEvents(s)));
    HandledAllSettled(cd, AllEvents(s));
    SettledPasses(cd, OutEvents(cd, AllEvents(s)));
  }
}
