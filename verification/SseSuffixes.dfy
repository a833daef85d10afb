/** The wire format seen from the middle of an event: what bytes written before do to the
    cutting and the fields of the bytes after them. */
module SseSuffixes {
  import opened Sequences
  import opened Bytes
  import opened Json
  import opened SseWire
  import opened JsonCodec

  // ----- cutting

  /** Whole lines in front of a stream join its first event. */
  lemma {:induction false} CutBehind(lines: Bytes, t: Bytes)
    ensures SameBehind(lines, CutFrom(START, t), CutFrom(Cut([], lines, []), t))
  {
    if t == [] {
      assert lines + [] == lines;
    } else {
      CutBehind(lines, t[..|t| - 1]);
      PushBehind(lines, CutFrom(START, t[..|t| - 1]), CutFrom(Cut([], lines, []), t[..|t| - 1]), t[|t| - 1]);
    }
  }

  predicate SameBehind(lines: Bytes, c: Cut, d: Cut) {
    && d.carry == c.carry && |d.events| == |c.events|
    && (c.events == [] ==> d.acc == lines + c.acc)
    && (c.events != [] ==> d.acc == c.acc && d.events[0] == lines + c.events[0] && d.events[1..] == c.events[1..])
  }

  lemma PushBehind(lines: Bytes, c: Cut, d: Cut, b: byte)
    requires SameBehind(lines, c, d)
    ensures SameBehind(lines, Push(c, b), Push(d, b))
  {
    Assoc(lines, c.acc, c.carry);
    Assoc(lines, c.acc + c.carry, [LF]);
  }

  /** An event under way, all its lines whole. */
  predicate WholeLines(r: Bytes) {
    r != [] && CutFrom(START, r) == Cut([], r, [])
  }

  lemma FinishedBehind(r: Bytes, c: Cut, d: Cut)
    requires SameBehind(r, c, d) && (c.events != [] || Rest(c) != [])
    ensures Finished(c) != [] && Finished(d) == [r + Finished(c)[0]] + Finished(c)[1..]
  {
    if c.events == [] {
      Assoc(r, c.acc, c.carry);
    } else {
      assert d.events == [d.events[0]] + d.events[1..];
      if Rest(c) != [] { assert (c.events + [Rest(c)])[1..] == c.events[1..] + [Rest(c)]; }
    }
  }

  lemma EventsBehind(r: Bytes, t: Bytes)
    requires WholeLines(r)
    ensures t == [] ==> AllEvents(r + t) == [r]
    ensures t != [] ==> AllEvents(t) != [] && AllEvents(r + t) == [r + AllEvents(t)[0]] + AllEvents(t)[1..]
  {
    if t == [] {
      assert r + t == r;
    } else {
      CutAppend(START, r, t);
      CutBehind(r, t);
      CutKeepsBytes(t);
      FinishedBehind(r, CutFrom(START, t), CutFrom(Cut([], r, []), t));
    }
  }

  /** Whole events in front of a stream are its first events. */
  lemma EventsAfter(evs: seq<Bytes>, t: Bytes)
    requires AllEventsWhole(evs)
    ensures AllEvents(Flatten(evs) + t) == evs + AllEvents(t)
  {
    CutWholes(evs);
    CutAppend(START, Flatten(evs), t);
    CutAfter(evs, START, t);
    assert evs + [] == evs;
    var c := CutFrom(START, t);
    Assoc(evs, c.events, [Rest(c)]);
  }

  /** An event under way: no blank line yet. */
  predicate Open(r: Bytes) {
    CutFrom(START, r).events == []
  }

  lemma GluedLine(carry: Bytes, json: Bytes)
    requires LF !in carry && LF !in json
    ensures var line := carry + FieldLine(DATA, json); LF !in line && !BlankLine(line)
  {
    var line := carry + FieldLine(DATA, json);
    assert line[|carry|] == DATA[0];
  }

  lemma LineEnds(c: Cut, line: Bytes)
    requires LF !in line && LF !in c.carry && !BlankLine(c.carry + line) && c.events == []
    ensures CutFrom(c, line + [LF] + [LF]) == Cut([c.acc + (c.carry + line) + [LF] + [LF]], [], [])
  {
    CutAppend(c, line + [LF], [LF]);
    CutLine(c, line);
    BlankEnds(c.acc + (c.carry + line) + [LF]);
  }

  /** A frame ends the event it falls into. */
  lemma FrameEnds(r: Bytes, json: Bytes)
    requires Open(r) && LF !in json
    ensures IsEvent(r + Frame([], json))
  {
    var c := CutFrom(START, r);
    var line := FieldLine(DATA, json);
    CutKeepsBytes(r);
    CarryHasNoLF(r);
    GluedLine(c.carry, json);
    FieldLineNotBlank(DATA, json);
    LineEnds(c, line);
    FrameGlued(r, json, c);
    CutAppend(START, r, Frame([], json));
  }

  lemma FrameGlued(r: Bytes, json: Bytes, c: Cut)
    requires r == c.acc + c.carry
    ensures var line := FieldLine(DATA, json);
      Frame([], json) == line + [LF] + [LF] && r + Frame([], json) == c.acc + (c.carry + line) + [LF] + [LF]
  {
    var line := FieldLine(DATA, json);
    assert Frame([], json) == line + [LF] + [LF];
    Assoc(c.acc, c.carry, line);
    Assoc(r, line, [LF]);
    Assoc(r, line + [LF], [LF]);
  }

  // ----- lines

  lemma {:induction false} SameLine(r: Bytes)
    requires Open(r)
    ensures ScanLines(Lines([], []), r).cur == CutFrom(START, r).carry
  {
    if r != [] { SameLine(r[..|r| - 1]); }
  }

  lemma {:induction false} ScanBehind(done: seq<Bytes>, l: Lines, t: Bytes)
    ensures ScanLines(Lines(done + l.done, l.cur), t) == var m := ScanLines(l, t); Lines(done + m.done, m.cur)
  {
    if t != [] {
      ScanBehind(done, l, t[..|t| - 1]);
      var m := ScanLines(l, t[..|t| - 1]);
      Assoc(done, m.done, [m.cur]);
    }
  }

  function LineStep(p: Parsed, line: Bytes): Parsed {
    FieldRead(TrimCR(line), p)
  }

  lemma {:induction false} FieldsReadFold(lines: seq<Bytes>, p: Parsed)
    ensures FieldsRead(lines, p) == Fold(LineStep, p, lines)
  {
    if lines != [] { FieldsReadFold(lines[..|lines| - 1], p); }
  }

  lemma FieldsReadAppend(a: seq<Bytes>, b: seq<Bytes>, p: Parsed)
    ensures FieldsRead(a + b, p) == FieldsRead(b, FieldsRead(a, p))
  {
    FieldsReadFold(a, p);
    FieldsReadFold(b, FieldsRead(a, p));
    FieldsReadFold(a + b, p);
    FoldAppend(LineStep, p, a, b);
  }

  lemma FieldReadParts(line: Bytes, p: Parsed, q: Parsed, parts: seq<Bytes>)
    requires p.parts == parts + q.parts
    ensures FieldRead(line, p).parts == parts + FieldRead(line, q).parts
  {
    Assoc(parts, q.parts, [FieldValue(line)]);
  }

  lemma {:induction false} FieldsReadParts(lines: seq<Bytes>, p: Parsed)
    ensures FieldsRead(lines, p).parts == p.parts + FieldsRead(lines, NOTHING).parts
  {
    if lines == [] {
      assert p.parts + [] == p.parts;
    } else {
      var before := lines[..|lines| - 1];
      FieldsReadParts(before, p);
      FieldReadParts(TrimCR(lines[|lines| - 1]), FieldsRead(before, p), FieldsRead(before, NOTHING), p.parts);
    }
  }

  /** The data of whole lines comes before the data of what follows. */
  lemma PartsBehind(r: Bytes, t: Bytes)
    requires WholeLines(r)
    ensures ReadFields(r + t).parts == ReadFields(r).parts + ReadFields(t).parts
  {
    SameLine(r);
    var none: Bytes := [];
    var l, m := ScanLines(Lines([], []), r), ScanLines(Lines([], []), t);
    ScanAppend(Lines([], []), r, t);
    ScanBehind(l.done, Lines([], []), t);
    assert l.done + [] == l.done;
    FieldsReadAppend(l.done, m.done, NOTHING);
    FieldsReadParts(m.done, FieldsRead(l.done, NOTHING));
    FieldReadParts(TrimCR(m.cur), FieldsRead(l.done + m.done, NOTHING), FieldsRead(m.done, NOTHING), FieldsRead(l.done, NOTHING).parts);
    assert TrimCR(none) == none;
  }

  lemma {:induction false} JoinAppend(a: seq<Bytes>, b: seq<Bytes>)
    requires a != [] && b != []
    ensures JoinLF(a + b) == JoinLF(a) + [LF] + JoinLF(b)
  {
    var n := |b| - 1;
    assert (a + b)[..|a + b| - 1] == a + b[..n];
    if n == 0 {
      assert a + b[..n] == a;
    } else {
      JoinAppend(a, b[..n]);
      Assoc(JoinLF(a), [LF], JoinLF(b[..n]));
      Assoc(JoinLF(a) + [LF], JoinLF(b[..n]), [LF]);
      Assoc(JoinLF(a) + [LF], JoinLF(b[..n]) + [LF], b[n]);
    }
  }

  lemma DataBehind(r: Bytes, t: Bytes)
    requires WholeLines(r)
    ensures EventData(r + t) ==
      if ReadFields(r).parts == [] then EventData(t)
      else if ReadFields(t).parts == [] then EventData(r)
      else EventData(r) + [LF] + EventData(t)
  {
    PartsBehind(r, t);
    var a, b := ReadFields(r).parts, ReadFields(t).parts;
    if a == [] {
      assert a + b == b;
    } else if b == [] {
      assert a + b == a;
    } else {
      JoinAppend(a, b);
    }
  }

  // ----- what an event under way does to the events after it

  /** White space for data, if any, is not noticed. */
  lemma SpaceBehind(cd: Codec, r: Bytes, t: Bytes)
    requires cd.Textual() && WholeLines(r) && JsonSpace(EventData(r))
    ensures cd.decode(EventData(r + t)) == cd.decode(EventData(t))
  {
    DataBehind(r, t);
    assert cd.SpaceLaw(EventData(r), EventData(t));
    assert cd.SpaceLaw([], []);
  }

  /** Other data spoils a frame behind it. */
  lemma DataSpoils(cd: Codec, r: Bytes, m: Fields)
    requires cd.Lawful() && cd.Textual() && WholeLines(r) && !JsonSpace(EventData(r))
    ensures cd.decode(EventData(r + Frame([], cd.encode(m)))).None?
  {
    var json := cd.encode(m);
    DataBehind(r, Frame([], json));
    UnnamedFrameFields(json);
    assert cd.LastLineLaw(EventData(r), m);
  }

  // ----- a frame that falls into a line

  lemma GluedFields(r: Bytes, json: Bytes)
    requires Open(r) && OneLine(json)
    ensures var l := ScanLines(Lines([], []), r);
      ReadFields(r + Frame([], json)) == FieldRead(l.cur + FieldLine(DATA, json), FieldsRead(l.done, NOTHING))
  {
    var l, line := ScanLines(Lines([], []), r), FieldLine(DATA, json);
    assert Frame([], json) == line + [LF] + [LF];
    ScanAppend(Lines([], []), r, line + [LF] + [LF]);
    FieldLineNotBlank(DATA, json);
    GluedScan(l, line);
    GluedTrim(l.cur, json);
    GluedLinesRead(l.done, l.cur + line);
  }

  lemma LineRead(line: Bytes)
    requires LF !in line
    ensures ReadFields(line + [LF]) == FieldRead(TrimCR(line), NOTHING)
  {
    var none: Bytes := [];
    ScanOneLine(Lines([], none), line);
    assert none + line == line && TrimCR(none) == none;
    var done := [line];
    assert ScanLines(Lines([], none), line + [LF]) == Lines(done, none);
    assert done[..0] == [] && FieldsRead(done, NOTHING) == FieldRead(TrimCR(line), FieldsRead([], NOTHING));
  }

  lemma GluedScan(l: Lines, line: Bytes)
    requires LF !in line
    ensures ScanLines(l, line + [LF] + [LF]) == Lines(l.done + [l.cur + line] + [[]], [])
  {
    var none: Bytes := [];
    ScanAppend(l, line + [LF], [LF]);
    ScanOneLine(l, line);
    assert none + [LF] == [LF] && none + none == none;
    ScanOneLine(Lines(l.done + [l.cur + line], none), none);
  }

  lemma GluedTrim(carry: Bytes, json: Bytes)
    requires OneLine(json)
    ensures TrimCR(carry + FieldLine(DATA, json)) == carry + FieldLine(DATA, json)
  {
    var line := carry + FieldLine(DATA, json);
    assert line[|line| - 1] != CR by {
      if json != [] { assert line[|line| - 1] == json[|json| - 1]; } else { assert line[|line| - 1] == SPACE; }
    }
  }

  lemma GluedLinesRead(done: seq<Bytes>, line: Bytes)
    requires TrimCR(line) == line
    ensures FieldsRead(done + [line] + [[]], NOTHING) == FieldRead(line, FieldsRead(done, NOTHING))
  {
    var none: Bytes := [];
    assert TrimCR(none) == none;
    assert (done + [line] + [none])[..|done| + 1] == done + [line];
    assert (done + [line])[..|done|] == done;
  }

  /** An unfinished line that already names the data field. */
  predicate Feeds(carry: Bytes) {
    COLON in carry && FieldName(carry) == DATA
  }

  lemma ColonKept(carry: Bytes, t: Bytes)
    requires COLON in carry
    ensures IndexOf(carry + t, COLON) == IndexOf(carry, COLON) >= 0
    ensures FieldName(carry + t) == FieldName(carry)
  {
    var i := IndexOf(carry, COLON);
    assert i >= 0;
    assert (carry + t)[i] == COLON;
    assert forall j :: 0 <= j < i ==> (carry + t)[j] == carry[j];
    assert (carry + t)[..i] == carry[..i];
  }

  lemma ValueGrows(carry: Bytes, t: Bytes)
    requires COLON in carry && t != [] && t[0] != SPACE
    ensures FieldValue(carry + t) == FieldValue(carry) + t
  {
    ColonKept(carry, t);
    var i := IndexOf(carry, COLON);
    var rest := carry[i + 1..];
    assert (carry + t)[i + 1..] == rest + t;
    if rest != [] { assert (rest + t)[1..] == rest[1..] + t; } else { assert rest + t == t; }
  }

  lemma GluedRead(carry: Bytes, json: Bytes, p: Parsed)
    requires carry != []
    ensures var line := FieldLine(DATA, json);
      FieldRead(carry + line, p).parts == if Feeds(carry) then p.parts + [FieldValue(carry) + line] else p.parts
  {
    var line := FieldLine(DATA, json);
    assert line[0] == DATA[0];
    assert (carry + line)[0] == carry[0];
    if COLON in carry {
      ColonKept(carry, line);
      ValueGrows(carry, line);
      if Feeds(carry) { assert carry[0] == DATA[0]; }
    } else {
      GluedName(carry, json);
    }
  }

  lemma GluedName(carry: Bytes, json: Bytes)
    requires carry != [] && COLON !in carry
    ensures FieldName(carry + FieldLine(DATA, json)) == carry + DATA != DATA
  {
    var line := FieldLine(DATA, json);
    FieldLineColon(DATA, json);
    var all := carry + line;
    assert all[|carry| + |DATA|] == COLON;
    assert forall j :: 0 <= j < |carry| + |DATA| ==> all[j] != COLON;
    assert IndexOf(all, COLON) == |carry| + |DATA|;
    assert all[..|carry| + |DATA|] == carry + line[..|DATA|];
    assert |carry + DATA| > |DATA|;
  }

  lemma TrimKeepsColon(carry: Bytes)
    requires COLON in carry
    ensures var t := TrimCR(carry); COLON in t && FieldName(t) == FieldName(carry) && t <= carry
    ensures JsonSpace(FieldValue(TrimCR(carry))) ==> JsonSpace(FieldValue(carry))
  {
    var t := TrimCR(carry);
    var i := IndexOf(carry, COLON);
    assert i >= 0 && i < |t| && t[i] == COLON;
    assert carry == t + carry[|t|..];
    ColonKept(t, carry[|t|..]);
    if JsonSpace(FieldValue(t)) {
      TrimmedSpace(t, carry, i);
    }
  }

  lemma TrimmedSpace(t: Bytes, carry: Bytes, i: nat)
    requires t <= carry && IndexOf(t, COLON) == IndexOf(carry, COLON) == i
    requires forall k :: |t| <= k < |carry| ==> carry[k] == CR
    requires JsonSpace(FieldValue(t))
    ensures JsonSpace(FieldValue(carry))
  {
    var v, w := t[i + 1..], carry[i + 1..];
    forall k | 0 <= k < |v| ensures JsonSpace([v[k]]) {
      if v[0] == SPACE && k > 0 { assert v[k] == FieldValue(t)[k - 1]; }
      if v[0] != SPACE { assert v[k] == FieldValue(t)[k]; }
    }
    forall k | 0 <= k < |w| ensures JsonSpace([w[k]]) {
      assert w[k] == carry[i + 1 + k];
      if k < |v| { assert w[k] == v[k]; }
    }
    assert forall k :: 0 <= k < |w| ==> JsonSpace([w[k]]) && [w[k]][0] == w[k];
  }

  /** What the unfinished line makes of its frame, and what it is worth without one. */
  lemma FedParts(r: Bytes, json: Bytes) returns (parts: seq<Bytes>, v: Bytes, w: Bytes)
    requires Open(r) && OneLine(json) && Feeds(CutFrom(START, r).carry)
    ensures ReadFields(r + Frame([], json)).parts == parts + [v + FieldLine(DATA, json)]
    ensures ReadFields(r).parts == parts + [w]
    ensures JsonSpace(w) ==> JsonSpace(v)
  {
    var l := ScanLines(Lines([], []), r);
    SameLine(r);
    GluedFields(r, json);
    var p := FieldsRead(l.done, NOTHING);
    GluedRead(l.cur, json, p);
    TrimKeepsColon(l.cur);
    parts, v, w := p.parts, FieldValue(l.cur), FieldValue(TrimCR(l.cur));
    assert ReadFields(r).parts == parts + [w] by { assert TrimCR(l.cur)[0] == DATA[0]; }
  }

  /** The data read so far, with what the unfinished line adds to it. */
  lemma FedData(r: Bytes, json: Bytes) returns (x: Bytes)
    requires Open(r) && OneLine(json) && Feeds(CutFrom(START, r).carry)
    ensures EventData(r + Frame([], json)) == x + FieldLine(DATA, json)
    ensures JsonSpace(EventData(r)) ==> JsonSpace(x)
  {
    var parts, v, w := FedParts(r, json);
    var line := FieldLine(DATA, json);
    if parts == [] {
      x := v;
      assert parts + [w] == [w] && parts + [v + line] == [v + line];
    } else {
      x := JoinLF(parts) + [LF] + v;
      JoinAppend(parts, [v + line]);
      JoinAppend(parts, [w]);
      Assoc(JoinLF(parts) + [LF], v, line);
      JoinedSpace(JoinLF(parts), v, w);
    }
  }

  lemma JoinedSpace(a: Bytes, v: Bytes, w: Bytes)
    requires JsonSpace(w) ==> JsonSpace(v)
    ensures JsonSpace(a + [LF] + w) ==> JsonSpace(a + [LF] + v)
  {
    var t := a + [LF] + w;
    if JsonSpace(t) {
      assert forall k :: 0 <= k < |a| ==> t[k] == a[k];
      assert forall k :: 0 <= k < |w| ==> t[|a| + 1 + k] == w[k];
    }
  }

  /** A frame that falls into a line is lost, whatever is in it. */
  lemma LineSwallows(cd: Codec, r: Bytes, m: Fields, n: Fields)
    requires cd.Lawful() && cd.Textual() && Open(r)
    requires var carry := CutFrom(START, r).carry; carry != [] && (BlankLine(carry) || JsonSpace(EventData(r)))
    ensures cd.decode(EventData(r + Frame([], cd.encode(m)))) == cd.decode(EventData(r + Frame([], cd.encode(n))))
  {
    var carry := CutFrom(START, r).carry;
    if Feeds(carry) {
      FedNothing(cd, r, m);
      FedNothing(cd, r, n);
    } else {
      SameLine(r);
      GluedFields(r, cd.encode(m));
      GluedFields(r, cd.encode(n));
      var p := FieldsRead(ScanLines(Lines([], []), r).done, NOTHING);
      GluedRead(carry, cd.encode(m), p);
      GluedRead(carry, cd.encode(n), p);
    }
  }

  lemma FedNothing(cd: Codec, r: Bytes, m: Fields)
    requires cd.Lawful() && cd.Textual() && Open(r) && Feeds(CutFrom(START, r).carry)
    requires BlankLine(CutFrom(START, r).carry) || JsonSpace(EventData(r))
    ensures cd.decode(EventData(r + Frame([], cd.encode(m)))).None?
  {
    assert !BlankLine(CutFrom(START, r).carry);
    var json := cd.encode(m);
    var x := FedData(r, json);
    var line := FieldLine(DATA, json);
    assert x + [LETTER_D] + line[1..] == x + line;
    assert cd.SpaceLaw(x, line[1..]);
  }

  /** Ending the line under way ends no event, and adds nothing to its data. */
  lemma LineFinished(r: Bytes)
    requires Open(r) && !BlankLine(CutFrom(START, r).carry)
    ensures WholeLines(r + [LF]) && EventData(r + [LF]) == EventData(r)
  {
    LineFinishedCut(r);
    LineFinishedData(r);
  }

  lemma LineFinishedCut(r: Bytes)
    requires Open(r) && !BlankLine(CutFrom(START, r).carry)
    ensures WholeLines(r + [LF])
  {
    var c := CutFrom(START, r);
    CutKeepsBytes(r);
    CutAppend(START, r, [LF]);
    CutOne(c, LF);
    Assoc(c.acc, c.carry, [LF]);
  }

  lemma LineFinishedData(r: Bytes)
    ensures EventData(r + [LF]) == EventData(r)
  {
    var l := ScanLines(Lines([], []), r);
    var none: Bytes := [];
    ScanAppend(Lines([], none), r, [LF]);
    ScanOneLine(l, none);
    assert none + [LF] == [LF] && l.cur + none == l.cur && TrimCR(none) == none;
    assert (l.done + [l.cur])[..|l.done|] == l.done;
  }
}
