/** The writer beyond its cap: an event too long to hold is written as far as it came, and the
    writer starts anew in the middle of it. */
module SpilledWrites {
  import opened Sequences
  import opened Bytes
  import opened SseWire
  import opened JsonCodec
  import opened Coalescer
  import opened SseLogWriter
  import opened ChunkTheorems

  // ----- what is written already does not matter to what is written next

  function Behind(out: seq<Bytes>, core: Core): Core {
    core.(out := out + core.out)
  }

  function LogBehind(out: seq<Bytes>, l: Log): Log {
    l.(core := Behind(out, l.core))
  }

  lemma FlushedBehind(cd: Codec, out: seq<Bytes>, core: Core)
    ensures Flushed(cd, Behind(out, core)) == Behind(out, Flushed(cd, core))
  {
    if core.pending.Some? { Assoc(out, core.out, [PendingBytes(cd, core.pending.value)]); }
  }

  lemma HandledBehind(cd: Codec, out: seq<Bytes>, core: Core, raw: Bytes)
    ensures Handled(cd, Behind(out, core), raw) == Behind(out, Handled(cd, core, raw))
  {
    FlushedBehind(cd, out, core);
    if Classify(cd, raw).None? { Assoc(out, Flushed(cd, core).out, [raw]); }
  }

  lemma {:induction false} ConsumedBehind(cd: Codec, out: seq<Bytes>, l: Log)
    ensures Consumed(cd, LogBehind(out, l)) == LogBehind(out, Consumed(cd, l))
    decreases |l.carry|
  {
    var i := IndexOf(l.carry, LF);
    if i >= 0 {
      HandledBehind(cd, out, l.core, l.acc + l.carry[..i + 1]);
      ConsumedBehind(cd, out, LineTaken(cd, l, i));
    }
  }

  lemma WrittenBehind(out: seq<Bytes>, done: seq<Bytes>, p: Bytes)
    ensures WrittenOut(out + done, p) == out + WrittenOut(done, p)
  {
    Assoc(out, done, [p]);
  }

  lemma SpilledBehind(cd: Codec, out: seq<Bytes>, l: Log)
    ensures SpilledOver(cd, LogBehind(out, l)) == LogBehind(out, SpilledOver(cd, l))
  {
    FlushedBehind(cd, out, l.core);
    var done := Flushed(cd, l.core).out;
    WrittenBehind(out, done, l.acc);
    WrittenBehind(out, WrittenOut(done, l.acc), l.carry);
  }

  lemma {:induction false} WroteAllBehind(cd: Codec, out: seq<Bytes>, l: Log, chunks: seq<Bytes>)
    ensures WroteAll(cd, LogBehind(out, l), chunks) == LogBehind(out, WroteAll(cd, l, chunks))
  {
    if chunks != [] {
      var n := |chunks| - 1;
      WroteAllBehind(cd, out, l, chunks[..n]);
      var before := WroteAll(cd, l, chunks[..n]);
      ConsumedBehind(cd, out, before.(carry := before.carry + chunks[n]));
      SpilledBehind(cd, out, Consumed(cd, before.(carry := before.carry + chunks[n])));
    }
  }

  lemma ClosedBehind(cd: Codec, out: seq<Bytes>, l: Log)
    ensures Closed(cd, LogBehind(out, l)) == LogBehind(out, Closed(cd, l))
  {
    var core := if l.acc == [] && l.carry == [] then l.core else Handled(cd, l.core, l.acc + l.carry);
    HandledBehind(cd, out, l.core, l.acc + l.carry);
    FlushedBehind(cd, out, core);
  }

  lemma {:induction false} WroteAllAppend(cd: Codec, l: Log, a: seq<Bytes>, b: seq<Bytes>)
    ensures WroteAll(cd, l, a + b) == WroteAll(cd, WroteAll(cd, l, a), b)
  {
    if b == [] {
      assert a + b == a;
    } else {
      WroteAllAppend(cd, l, a, b[..|b| - 1]);
      assert (a + b)[..|a + b| - 1] == a + b[..|b| - 1];
    }
  }

  // ----- a spill

  /** The writes up to and with the first that spills. */
  predicate FirstSpill(chunks: seq<Bytes>) {
    chunks != [] && !Spills(chunks[..|chunks| - 1]) && Over(Flatten(chunks))
  }

  /** The bytes written by a spill: the events before it compacted, and the event under way
      as far as it came. */
  function SpilledBytes(cd: Codec, s: Bytes): Bytes {
    var c := CutFrom(START, s);
    Flatten(OutEvents(cd, c.events)) + Rest(c)
  }

  lemma WrittenFlattens(out: seq<Bytes>, p: Bytes)
    ensures Flatten(WrittenOut(out, p)) == Flatten(out) + p
  {
    if p != [] { assert (out + [p])[..|out|] == out; }
  }

  /** A write that spills leaves the writer as good as new behind what it has written. */
  lemma SpillStartsAnew(cd: Codec, chunks: seq<Bytes>) returns (out: seq<Bytes>)
    requires FirstSpill(chunks)
    ensures WroteAll(cd, FRESH, chunks) == LogBehind(out, FRESH) && Flatten(out) == SpilledBytes(cd, Flatten(chunks))
  {
    var n := |chunks| - 1;
    var before, p := Flatten(chunks[..n]), chunks[n];
    WroteAllFollowsCut(cd, chunks[..n]);
    LastWriteConsumed(cd, before, p);
    NotOverBefore(chunks);
    var c := CutFrom(START, Flatten(chunks));
    var done := OutEvents(cd, c.events);
    out := WrittenOut(WrittenOut(done, c.acc), c.carry);
    WrittenFlattens(done, c.acc);
    WrittenFlattens(WrittenOut(done, c.acc), c.carry);
    Assoc(Flatten(done), c.acc, c.carry);
    assert out + [] == out;
  }

  lemma NotOverBefore(chunks: seq<Bytes>)
    requires FirstSpill(chunks)
    ensures chunks[|chunks| - 1] != []
  {
    var before := chunks[..|chunks| - 1];
    assert before[..|before|] == before && !Over(Flatten(before));
    assert chunks[|chunks| - 1] == [] ==> Flatten(chunks) == Flatten(before);
  }

  /** What is written from a spill on is what would be written of the later writes alone. */
  lemma TranscriptSplits(cd: Codec, first: seq<Bytes>, later: seq<Bytes>)
    requires FirstSpill(first)
    ensures Transcript(cd, first + later) == SpilledBytes(cd, Flatten(first)) + Transcript(cd, later)
  {
    var out := SpillStartsAnew(cd, first);
    WroteAllAppend(cd, FRESH, first, later);
    WroteAllBehind(cd, out, FRESH, later);
    ClosedBehind(cd, out, WroteAll(cd, FRESH, later));
    FlattenAppend(out, Closed(cd, WroteAll(cd, FRESH, later)).core.out);
  }

  lemma SpillsLast(chunks: seq<Bytes>)
    requires chunks != [] && Spills(chunks) && !Spills(chunks[..|chunks| - 1])
    ensures FirstSpill(chunks)
  {
    var before := chunks[..|chunks| - 1];
    assert forall k :: 0 <= k < |chunks| ==> before[..k] == chunks[..k];
    assert chunks[..|chunks|] == chunks;
  }

  lemma {:induction false} SpillsFirst(chunks: seq<Bytes>) returns (n: nat)
    requires Spills(chunks)
    ensures n <= |chunks| && FirstSpill(chunks[..n])
  {
    n := |chunks|;
    assert chunks[..n] == chunks;
    if Spills(chunks[..n - 1]) {
      n := SpillsFirst(chunks[..n - 1]);
      assert chunks[..|chunks| - 1][..n] == chunks[..n];
    } else {
      SpillsLast(chunks);
    }
  }

  /** A log that has spilled is longer than any blob. */
  lemma SpilledIsLong(cd: Codec, chunks: seq<Bytes>)
    requires Spills(chunks)
    ensures |Transcript(cd, chunks)| > MAX_MEDIUM_BLOB
  {
    var n := SpillsFirst(chunks);
    Halves(chunks, n);
    TranscriptSplits(cd, chunks[..n], chunks[n..]);
  }
}
