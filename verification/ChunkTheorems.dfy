/** How a stream is cut into Write calls does not change the log. */
module ChunkTheorems {
  import opened Sequences
  import opened Options
  import opened Bytes
  import opened SseWire
  import opened JsonCodec
  import opened Coalescer
  import opened SseLogWriter

  /** The writer's state after the bytes behind a cut. */
  function StateAt(cd: Codec, c: Cut): Log {
    Log(HandledAll(cd, IDLE, c.events), c.acc, c.carry)
  }

  lemma StateAtEvent(cd: Codec, c: Cut, e: Bytes)
    ensures StateAt(cd, Cut(c.events + [e], [], [])) == Log(Handled(cd, StateAt(cd, c).core, e), [], [])
  {
    assert (c.events + [e])[..|c.events|] == c.events;
  }

  lemma LineTakenIs(cd: Codec, c: Cut, line: Bytes, rest: Bytes)
    requires LF !in line
    ensures LineTaken(cd, StateAt(cd, c).(carry := line + [LF] + rest), |line|)
         == StateAt(cd, Push(c.(carry := line), LF)).(carry := rest)
  {
    var carry := line + [LF] + rest;
    assert carry[..|line| + 1] == line + [LF] && carry[|line| + 1..] == rest;
    assert BlankLine(line + [LF]) <==> BlankLine(line) by {
      assert forall j :: 0 <= j < |line| ==> (line + [LF])[j] == line[j];
    }
    Assoc(c.acc, line, [LF]);
    StateAtEvent(cd, c, c.acc + line + [LF]);
  }

  lemma ConsumedLine(cd: Codec, c: Cut, line: Bytes, rest: Bytes)
    requires LF !in line
    ensures Consumed(cd, StateAt(cd, c).(carry := line + [LF] + rest))
         == Consumed(cd, StateAt(cd, Push(c.(carry := line), LF)).(carry := rest))
  {
    FirstLF(line, rest);
    LineTakenIs(cd, c, line, rest);
  }

  lemma FirstLF(line: Bytes, rest: Bytes)
    requires LF !in line
    ensures IndexOf(line + [LF] + rest, LF) == |line|
  {
    var carry := line + [LF] + rest;
    assert carry[|line|] == LF;
    assert forall j :: 0 <= j < |line| ==> carry[j] == line[j];
  }

  /** One whole line, the first part of it carried. */
  lemma LineFollowsCut(cd: Codec, c: Cut, t1: Bytes, t2: Bytes)
    requires LF !in c.carry && LF !in t1
    ensures var d := Push(c.(carry := c.carry + t1), LF);
      Consumed(cd, StateAt(cd, c).(carry := c.carry + (t1 + [LF] + t2))) == Consumed(cd, StateAt(cd, d).(carry := d.carry + t2))
  {
    ConsumedLine(cd, c, c.carry + t1, t2);
    Assoc(c.carry, t1, [LF]);
    Assoc(c.carry, t1 + [LF], t2);
    Assoc([], t2, []);
  }

  lemma CutOfLine(c: Cut, line: Bytes, rest: Bytes)
    requires LF !in line
    ensures CutFrom(c, line + [LF] + rest) == CutFrom(Push(c.(carry := c.carry + line), LF), rest)
  {
    CutAppend(c, line + [LF], rest);
    CutLine(c, line);
  }

  lemma ConsumedNoLine(cd: Codec, l: Log)
    requires LF !in l.carry
    ensures Consumed(cd, l) == l
  {
  }

  /** consume brings the writer from one cut to the cut of the longer stream. */
  lemma {:induction false} ConsumedFollowsCut(cd: Codec, c: Cut, t: Bytes)
    requires LF !in c.carry
    ensures Consumed(cd, StateAt(cd, c).(carry := c.carry + t)) == StateAt(cd, CutFrom(c, t))
    decreases |t|
  {
    if LF in t {
      var i := IndexOf(t, LF);
      var t1, t2 := t[..i], t[i + 1..];
      var d := Push(c.(carry := c.carry + t1), LF);
      assert t == t1 + [LF] + t2;
      LineFollowsCut(cd, c, t1, t2);
      ConsumedFollowsCut(cd, d, t2);
      CutOfLine(c, t1, t2);
    } else {
      CutPlain(c, t);
      ConsumedNoLine(cd, StateAt(cd, c).(carry := c.carry + t));
    }
  }

  // ----- staying under the cap

  /** The event under way after s is too long to be held. */
  predicate Over(s: Bytes) {
    |Rest(CutFrom(START, s))| > MAX_MEDIUM_BLOB
  }

  /** Some write leaves more of an event under way than the writer holds. */
  predicate Spills(chunks: seq<Bytes>) {
    exists k :: 0 <= k <= |chunks| && Over(Flatten(chunks[..k]))
  }

  lemma SpillsLater(chunks: seq<Bytes>, n: nat)
    requires n <= |chunks| && Spills(chunks[..n])
    ensures Spills(chunks)
  {
    var k :| 0 <= k <= n && Over(Flatten(chunks[..n][..k]));
    assert chunks[..n][..k] == chunks[..k];
  }

  lemma {:induction false} WroteAllFollowsCut(cd: Codec, chunks: seq<Bytes>)
    requires !Spills(chunks)
    ensures WroteAll(cd, FRESH, chunks) == StateAt(cd, CutFrom(START, Flatten(chunks)))
  {
    if chunks != [] {
      var n := |chunks| - 1;
      var before := Flatten(chunks[..n]);
      if Spills(chunks[..n]) { SpillsLater(chunks, n); }
      WroteAllFollowsCut(cd, chunks[..n]);
      LastWriteConsumed(cd, before, chunks[n]);
      assert chunks[..|chunks|] == chunks && !Over(Flatten(chunks[..|chunks|]));
      if chunks[n] == [] { assert Flatten(chunks) == before; }
    }
  }

  /** One more write, before the cap is looked at. */
  lemma LastWriteConsumed(cd: Codec, before: Bytes, p: Bytes)
    ensures var l := StateAt(cd, CutFrom(START, before));
      Consumed(cd, l.(carry := l.carry + p)) == StateAt(cd, CutFrom(START, before + p))
  {
    CutAppend(START, before, p);
    CarryHasNoLF(before);
    ConsumedFollowsCut(cd, CutFrom(START, before), p);
  }

  /** What the writer has written once it is flushed. */
  function Transcript(cd: Codec, chunks: seq<Bytes>): Bytes {
    Flatten(Closed(cd, WroteAll(cd, FRESH, chunks)).core.out)
  }

  /** Any way of cutting a stream into writes gives the log of the stream's events, unless it
      spills. */
  lemma ChunksDoNotMatter(cd: Codec, chunks: seq<Bytes>)
    requires !Spills(chunks)
    ensures Closed(cd, WroteAll(cd, FRESH, chunks)) == Log(Core(OutEvents(cd, AllEvents(Flatten(chunks))), None), [], [])
    ensures Transcript(cd, chunks) == Compact(cd, Flatten(chunks))
  {
    WroteAllFollowsCut(cd, chunks);
    var c := CutFrom(START, Flatten(chunks));
    if Rest(c) == [] {
      assert c.acc == [] && c.carry == [];
    } else {
      assert (c.events + [Rest(c)])[..|c.events|] == c.events;
    }
  }

  // ----- streams that cannot spill

  predicate Fits(evs: seq<Bytes>) {
    forall i :: 0 <= i < |evs| ==> |evs[i]| <= 16_777_215
  }

  /** The event under way only grows, and ends up among the finished ones. */
  lemma {:induction false} RestGrows(c: Cut, t: Bytes)
    ensures var d := CutFrom(c, t);
      |d.events| >= |c.events|
      && if |d.events| == |c.events| then |Rest(d)| >= |Rest(c)| else |d.events[|c.events|]| >= |Rest(c)|
  {
    if t != [] { RestGrows(c, t[..|t| - 1]); }
  }

  lemma RestFits(s: Bytes, t: Bytes)
    requires Fits(AllEvents(s + t))
    ensures !Over(s)
  {
    CutAppend(START, s, t);
    var c, d := CutFrom(START, s), CutFrom(START, s + t);
    RestGrows(c, t);
    if Rest(c) != [] {
      var k := |c.events|;
      assert |AllEvents(s + t)[k]| >= |Rest(c)|;
    }
  }

  /** A stream without an event above the cap never spills, however it is written. */
  lemma FittingNeverSpills(chunks: seq<Bytes>)
    requires Fits(AllEvents(Flatten(chunks)))
    ensures !Spills(chunks)
  {
    forall k | 0 <= k <= |chunks| ensures !Over(Flatten(chunks[..k])) {
      Halves(chunks, k);
      FlattenAppend(chunks[..k], chunks[k..]);
      RestFits(Flatten(chunks[..k]), Flatten(chunks[k..]));
    }
  }
}
