/** The compacted transcript described without a pending event: one event for every
    maximal run of events that share a key. */
module RunTheorems {
  import opened Sequences
  import opened Options
  import opened Bytes
  import opened Json
  import opened MergeKeys
  import opened Merge
  import opened MergeLaws
  import opened MergeTheorems
  import opened SseWire
  import opened JsonCodec
  import opened Coalescer
  import opened SseLogWriter
  import opened ChunkTheorems
  import opened SseTheorems

  /** How far the events from position i on share key. */
  function RunFrom(keyOf: Bytes -> Option<Key>, evs: seq<Bytes>, key: Key, i: nat): (n: nat)
    requires i <= |evs|
    ensures i <= n <= |evs|
    ensures forall j :: i <= j < n ==> keyOf(evs[j]) == Some(key)
    ensures n < |evs| ==> keyOf(evs[n]) != Some(key)
    decreases |evs| - i
  {
    if i < |evs| && keyOf(evs[i]) == Some(key) then RunFrom(keyOf, evs, key, i + 1) else i
  }

  function RunLength(cd: Codec, evs: seq<Bytes>): (n: nat)
    requires evs != []
    ensures 1 <= n <= |evs|
  {
    match KeyOf(cd, evs[0])
    case None => 1
    case Some(key) => RunFrom(raw => KeyOf(cd, raw), evs, key, 1)
  }

  function ObjOf(cd: Codec, raw: Bytes): Fields {
    match Classify(cd, raw)
    case None => map[]
    case Some(item) => item.obj
  }

  /** The objects of a run merged from left to right. */
  function RunObj(cd: Codec, run: seq<Bytes>): Fields
    requires run != []
  {
    if |run| == 1 then ObjOf(cd, run[0])
    else
      var before := RunObj(cd, run[..|run| - 1]);
      Merged(before, ObjOf(cd, run[|run| - 1])).GetOr(before)
  }

  /** A run of one passes through raw; a longer one becomes one event named as its first. */
  function RunBytes(cd: Codec, run: seq<Bytes>): Bytes
    requires run != []
  {
    if |run| == 1 then run[0] else Frame(EventName(run[0]), cd.encode(RunObj(cd, run)))
  }

  function RunsOut(cd: Codec, evs: seq<Bytes>): seq<Bytes>
    decreases |evs|
  {
    if evs == [] then []
    else
      var n := RunLength(cd, evs);
      [RunBytes(cd, evs[..n])] + RunsOut(cd, evs[n..])
  }

  predicate IsRun(cd: Codec, run: seq<Bytes>, key: Key) {
    run != [] && forall i :: 0 <= i < |run| ==> KeyOf(cd, run[i]) == Some(key)
  }

  /** Nothing of evs joins what the core holds back. */
  predicate StartsAfresh(cd: Codec, core: Core, evs: seq<Bytes>) {
    core.pending.Some? && evs != [] ==> KeyOf(cd, evs[0]) != Some(core.pending.value.key)
  }

  lemma RunJoined(cd: Codec, out: seq<Bytes>, q: Pending, raw: Bytes) returns (p: Pending)
    requires PendingOk(cd, q) && Safe(cd, raw) && KeyOf(cd, raw) == Some(q.key)
    ensures p == q.(obj := Merged(q.obj, ObjOf(cd, raw)).GetOr(q.obj), merged := true)
    ensures Handled(cd, Core(out, Some(q)), raw) == Core(out, Some(p)) && PendingOk(cd, p)
  {
    SafeJoins(cd, q, raw);
    p := q.(obj := Merged(q.obj, ObjOf(cd, raw)).value, merged := true);
  }

  lemma RunStarted(cd: Codec, core: Core, raw: Bytes, key: Key) returns (p: Pending)
    requires Safe(cd, raw) && KeyOf(cd, raw) == Some(key) && StartsAfresh(cd, core, [raw])
    ensures p == Pending(raw, EventName(raw), ObjOf(cd, raw), key, false)
    ensures HandledAll(cd, core, [raw]) == Core(Shown(cd, core), Some(p)) && PendingOk(cd, p)
  {
    HandledOne(cd, core, raw);
    StartedOk(cd, raw);
    p := Pending(raw, EventName(raw), ObjOf(cd, raw), key, false);
  }

  lemma {:induction false} RunHandled(cd: Codec, core: Core, run: seq<Bytes>, key: Key) returns (p: Pending)
    requires AllSafe(cd, run)
    requires IsRun(cd, run, key) && StartsAfresh(cd, core, run)
    ensures HandledAll(cd, core, run) == Core(Shown(cd, core), Some(p))
    ensures p.key == key && p.obj == RunObj(cd, run) && p.event == EventName(run[0])
    ensures p.merged == (|run| > 1) && p.raw == run[0]
    ensures PendingOk(cd, p)
  {
    var n := |run| - 1;
    if n == 0 {
      assert run == [run[0]];
      p := RunStarted(cd, core, run[0], key);
    } else {
      var q := RunHandled(cd, core, run[..n], key);
      p := RunJoined(cd, Shown(cd, core), q, run[n]);
    }
  }

  lemma RunShown(cd: Codec, core: Core, run: seq<Bytes>, key: Key)
    requires cd.Lawful() && CoreOk(cd, core) && AllSafe(cd, run) && [] !in run
    requires IsRun(cd, run, key) && StartsAfresh(cd, core, run)
    ensures var next := HandledAll(cd, core, run);
      CoreOk(cd, next) && Shown(cd, next) == Shown(cd, core) + [RunBytes(cd, run)]
      && next.pending.Some? && next.pending.value.key == key
  {
    var p := RunHandled(cd, core, run, key);
    FrameNotEmpty(p.event, cd.encode(p.obj));
    assert run[0] in run;
    assert PendingBytes(cd, p) == RunBytes(cd, run);
  }

  lemma PassedShown(cd: Codec, core: Core, raw: Bytes)
    requires raw != [] && KeyOf(cd, raw).None?
    ensures HandledAll(cd, core, [raw]) == Core(Shown(cd, core) + [raw], None)
  {
    HandledOne(cd, core, raw);
  }

  /** The first event of evs passes through. */
  lemma HeadPassed(cd: Codec, core: Core, evs: seq<Bytes>)
    requires CoreOk(cd, core) && evs != [] && evs[0] != [] && KeyOf(cd, evs[0]).None?
    ensures var next := HandledAll(cd, core, evs[..1]);
      CoreOk(cd, next) && Shown(cd, next) == Shown(cd, core) + [RunBytes(cd, evs[..1])]
      && StartsAfresh(cd, next, evs[1..])
  {
    assert evs[..1] == [evs[0]];
    PassedShown(cd, core, evs[0]);
  }

  /** The first n events of evs are a run. */
  lemma HeadIsRun(cd: Codec, core: Core, evs: seq<Bytes>, n: nat, key: Key)
    requires cd.Lawful() && CoreOk(cd, core) && 0 < n <= |evs|
    requires AllSafe(cd, evs[..n]) && [] !in evs[..n]
    requires IsRun(cd, evs[..n], key) && StartsAfresh(cd, core, evs[..n])
    requires n < |evs| ==> KeyOf(cd, evs[n]) != Some(key)
    ensures var next := HandledAll(cd, core, evs[..n]);
      CoreOk(cd, next) && Shown(cd, next) == Shown(cd, core) + [RunBytes(cd, evs[..n])]
      && StartsAfresh(cd, next, evs[n..])
  {
    RunShown(cd, core, evs[..n], key);
  }

  lemma RunLengthIs(cd: Codec, evs: seq<Bytes>, key: Key)
    requires evs != [] && KeyOf(cd, evs[0]) == Some(key)
    ensures var n := RunLength(cd, evs);
      IsRun(cd, evs[..n], key) && (n < |evs| ==> KeyOf(cd, evs[n]) != Some(key))
  {
  }

  lemma SafeHead(cd: Codec, core: Core, evs: seq<Bytes>, n: nat)
    requires 0 < n <= |evs| && AllSafe(cd, evs) && [] !in evs && StartsAfresh(cd, core, evs)
    ensures AllSafe(cd, evs[..n]) && [] !in evs[..n] && StartsAfresh(cd, core, evs[..n]) && evs[0] != []
  {
    assert forall i :: 0 <= i < n ==> evs[..n][i] == evs[i] && evs[i] in evs;
  }

  lemma HeadHandled(cd: Codec, core: Core, evs: seq<Bytes>, n: nat)
    requires cd.Lawful() && CoreOk(cd, core) && AllSafe(cd, evs) && [] !in evs
    requires StartsAfresh(cd, core, evs) && evs != [] && n == RunLength(cd, evs)
    ensures var next := HandledAll(cd, core, evs[..n]);
      CoreOk(cd, next) && Shown(cd, next) == Shown(cd, core) + [RunBytes(cd, evs[..n])]
      && StartsAfresh(cd, next, evs[n..])
  {
    SafeHead(cd, core, evs, n);
    match KeyOf(cd, evs[0]) {
      case None =>
        HeadPassed(cd, core, evs);
      case Some(key) =>
        RunLengthIs(cd, evs, key);
        HeadIsRun(cd, core, evs, n, key);
    }
  }

  lemma {:induction false} RunsHandled(cd: Codec, core: Core, evs: seq<Bytes>)
    requires cd.Lawful() && CoreOk(cd, core) && AllSafe(cd, evs) && [] !in evs
    requires StartsAfresh(cd, core, evs)
    ensures Shown(cd, HandledAll(cd, core, evs)) == Shown(cd, core) + RunsOut(cd, evs)
    decreases |evs|
  {
    if evs != [] {
      var n := RunLength(cd, evs);
      var head, rest := evs[..n], evs[n..];
      var next := HandledAll(cd, core, head);
      HeadHandled(cd, core, evs, n);
      RunsHandled(cd, next, rest);
      calc {
        Shown(cd, HandledAll(cd, core, evs));
        { HandledAllSplit(cd, core, evs, n); }
        Shown(cd, HandledAll(cd, next, rest));
        Shown(cd, core) + [RunBytes(cd, head)] + RunsOut(cd, rest);
        { Assoc(Shown(cd, core), [RunBytes(cd, head)], RunsOut(cd, rest)); }
        Shown(cd, core) + ([RunBytes(cd, head)] + RunsOut(cd, rest));
      }
    } else {
      assert Shown(cd, core) + [] == Shown(cd, core);
    }
  }

  /** The writer's output event by event: one per maximal run. */
  lemma OutputIsRuns(cd: Codec, evs: seq<Bytes>)
    requires cd.Lawful() && AllSafe(cd, evs) && [] !in evs
    ensures OutEvents(cd, evs) == RunsOut(cd, evs)
  {
    RunsHandled(cd, IDLE, evs);
  }

  /** From any way of writing a stream to the bytes of its maximal runs. */
  lemma WriterWritesRuns(cd: Codec, chunks: seq<Bytes>)
    requires cd.Lawful() && !Spills(chunks) && AllSafe(cd, AllEvents(Flatten(chunks)))
    ensures Closed(cd, WroteAll(cd, FRESH, chunks)).core.out == RunsOut(cd, AllEvents(Flatten(chunks)))
  {
    ChunksDoNotMatter(cd, chunks);
    AllEventsWellCut(Flatten(chunks));
    WellCutNotEmpty(AllEvents(Flatten(chunks)));
    OutputIsRuns(cd, AllEvents(Flatten(chunks)));
  }

  /** Feeding the writer its own output, in any chunks, returns that output. */
  lemma WriterIdempotent(cd: Codec, first: seq<Bytes>, second: seq<Bytes>)
    requires cd.Lawful() && !Spills(first) && AllSafe(cd, AllEvents(Flatten(first)))
    requires Flatten(second) == Transcript(cd, first) && !Spills(second)
    ensures Transcript(cd, second) == Flatten(second)
  {
    ChunksDoNotMatter(cd, first);
    ChunksDoNotMatter(cd, second);
    CompactIdempotent(cd, Flatten(first));
  }

  /** What is written for a run reads back as its first event's name and its objects merged. */
  lemma RunReadsBack(cd: Codec, run: seq<Bytes>, key: Key)
    requires cd.Lawful() && IsRun(cd, run, key)
    ensures EventName(RunBytes(cd, run)) == EventName(run[0])
    ensures cd.decode(EventData(RunBytes(cd, run))) == Some(RunObj(cd, run))
  {
    EventNameClean(run[0]);
    if |run| > 1 { FrameReadsBack(EventName(run[0]), cd.encode(RunObj(cd, run))); }
  }

  // ----- finish reasons over a run

  function LastFinish(cd: Codec, run: seq<Bytes>, i: nat): Option<Json> {
    if run == [] then None
    else Later(LastFinish(cd, run[..|run| - 1], i), FinishAt(ObjOf(cd, run[|run| - 1]), i))
  }

  lemma {:induction false} RunObjKey(cd: Codec, run: seq<Bytes>, key: Key)
    requires IsRun(cd, run, key) && AllSafe(cd, run)
    ensures MergeKey(RunObj(cd, run)) == Some(key) && RoutedAlike(RunObj(cd, run)) && DistinctIndexes(key)
  {
    if |run| > 1 {
      RunObjKey(cd, run[..|run| - 1], key);
      MergeKeepsKey(RunObj(cd, run[..|run| - 1]), ObjOf(cd, run[|run| - 1]));
    }
  }

  /** A merged choice finishes as the last event of its run that says how. */
  lemma {:induction false} RunFinish(cd: Codec, run: seq<Bytes>, key: Key, i: nat)
    requires IsRun(cd, run, key) && AllSafe(cd, run) && key.OpenAI?
    ensures FinishAt(RunObj(cd, run), i) == LastFinish(cd, run, i)
  {
    var n := |run| - 1;
    if n == 0 {
      assert LastFinish(cd, run[..0], i) == None;
      RunObjKey(cd, run, key);
    } else {
      RunFinish(cd, run[..n], key, i);
      RunObjKey(cd, run[..n], key);
      RunObjStep(cd, run, key, i);
    }
  }

  lemma RunObjStep(cd: Codec, run: seq<Bytes>, key: Key, i: nat)
    requires |run| > 1 && AllSafe(cd, run) && KeyOf(cd, run[|run| - 1]) == Some(key) && key.OpenAI?
    requires MergeKey(RunObj(cd, run[..|run| - 1])) == Some(key) && RoutedAlike(RunObj(cd, run[..|run| - 1])) && DistinctIndexes(key)
    ensures FinishAt(RunObj(cd, run), i)
         == Later(FinishAt(RunObj(cd, run[..|run| - 1]), i), FinishAt(ObjOf(cd, run[|run| - 1]), i))
  {
    MergeFinish(RunObj(cd, run[..|run| - 1]), ObjOf(cd, run[|run| - 1]), i);
  }

  // ----- the other fields over a run

  function LastField(cd: Codec, run: seq<Bytes>, k: string): Option<Json> {
    if run == [] then None
    else Later(LastField(cd, run[..|run| - 1], k), Get(ObjOf(cd, run[|run| - 1]), k))
  }

  /** A run of OpenAI events is written with the last usage and the last sequence number in it,
      and otherwise with what its first event has besides the choices. */
  lemma {:induction false} RunFields(cd: Codec, run: seq<Bytes>, key: Key, k: string)
    requires IsRun(cd, run, key) && AllSafe(cd, run) && key.OpenAI? && k != "choices"
    ensures Get(RunObj(cd, run), k) ==
      if k == "usage" || k == "sequence_number" then LastField(cd, run, k) else Get(ObjOf(cd, run[0]), k)
  {
    var n := |run| - 1;
    if n == 0 {
      assert LastField(cd, run[..0], k) == None;
    } else {
      RunFields(cd, run[..n], key, k);
      RunObjKey(cd, run[..n], key);
      var before, obj := RunObj(cd, run[..n]), ObjOf(cd, run[n]);
      MergeKeepsKey(before, obj);
      MergeFields(before, obj, k);
    }
  }
}
