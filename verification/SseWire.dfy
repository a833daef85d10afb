/** The SSE wire format of sse_log.go: cutting a byte stream into events and reading
    an event's fields (section 9.2.5 and section 9.2.6 of the WHATWG HTML Living
    Standard, with the code's line ending LF and trimmed CRs). */
module SseWire {
  import opened Sequences
  import opened Bytes

  // ----- cutting

  /** A line that ends an event: nothing but CR and LF. */
  predicate BlankLine(line: Bytes) {
    forall i :: 0 <= i < |line| ==> line[i] == CR || line[i] == LF
  }

  /** A stream cut at its blank lines: the finished events, then the whole lines and
      the unfinished line of the event under way. */
  datatype Cut = Cut(events: seq<Bytes>, acc: Bytes, carry: Bytes)

  const START := Cut([], [], [])

  function Push(c: Cut, b: byte): Cut {
    if b != LF then c.(carry := c.carry + [b])
    else if BlankLine(c.carry) then Cut(c.events + [c.acc + c.carry + [LF]], [], [])
    else Cut(c.events, c.acc + c.carry + [LF], [])
  }

  function CutFrom(c: Cut, s: Bytes): Cut {
    if s == [] then c else Push(CutFrom(c, s[..|s| - 1]), s[|s| - 1])
  }

  function Rest(c: Cut): Bytes {
    c.acc + c.carry
  }

  /** Every event of a finished stream; the last may lack its blank line. */
  function Finished(c: Cut): seq<Bytes> {
    if Rest(c) == [] then c.events else c.events + [Rest(c)]
  }

  function AllEvents(s: Bytes): seq<Bytes> {
    Finished(CutFrom(START, s))
  }

  /** One whole event: a single blank line, at the end. */
  predicate IsEvent(e: Bytes) {
    CutFrom(START, e) == Cut([e], [], [])
  }

  /** The start of an event, without its blank line. */
  predicate IsOpen(e: Bytes) {
    e != [] && CutFrom(START, e).events == []
  }

  predicate AllEventsWhole(evs: seq<Bytes>) {
    forall i :: 0 <= i < |evs| ==> IsEvent(evs[i])
  }

  /** Events as AllEvents yields them. */
  predicate WellCut(evs: seq<Bytes>) {
    evs != [] ==>
      AllEventsWhole(evs[..|evs| - 1]) && (IsEvent(evs[|evs| - 1]) || IsOpen(evs[|evs| - 1]))
  }

  lemma {:induction false} CutAppend(c: Cut, s: Bytes, t: Bytes)
    ensures CutFrom(c, s + t) == CutFrom(CutFrom(c, s), t)
  {
    if t == [] {
      assert s + t == s;
    } else {
      CutAppend(c, s, t[..|t| - 1]);
      assert (s + t)[..|s + t| - 1] == s + t[..|t| - 1];
    }
  }

  lemma {:induction false} CutPlain(c: Cut, t: Bytes)
    requires LF !in t
    ensures CutFrom(c, t) == c.(carry := c.carry + t)
  {
    if t == [] {
      assert c.carry + t == c.carry;
    } else {
      assert t[|t| - 1] in t;
      CutPlain(c, t[..|t| - 1]);
      assert c.carry + t == c.carry + t[..|t| - 1] + [t[|t| - 1]];
    }
  }

  /** One line: it ends an event or joins the lines before it. */
  lemma CutLine(c: Cut, t: Bytes)
    requires LF !in t
    ensures CutFrom(c, t + [LF]) == Push(c.(carry := c.carry + t), LF)
  {
    CutPlain(c, t);
    assert (t + [LF])[..|t|] == t;
  }

  /** Events already finished do not matter to what follows. */
  lemma {:induction false} CutAfter(evs: seq<Bytes>, c: Cut, s: Bytes)
    ensures CutFrom(c.(events := evs + c.events), s)
         == CutFrom(c, s).(events := evs + CutFrom(c, s).events)
  {
    if s != [] {
      CutAfter(evs, c, s[..|s| - 1]);
      var d := CutFrom(c, s[..|s| - 1]);
      assert evs + d.events + [d.acc + d.carry + [LF]] == evs + (d.events + [d.acc + d.carry + [LF]]);
    }
  }

  lemma {:induction false} CarryHasNoLF(s: Bytes)
    ensures LF !in CutFrom(START, s).carry
  {
    if s != [] { CarryHasNoLF(s[..|s| - 1]); }
  }

  lemma PushKeepsBytes(c: Cut, b: byte)
    ensures Flatten(Push(c, b).events) + Rest(Push(c, b)) == Flatten(c.events) + Rest(c) + [b]
  {
    if b == LF && BlankLine(c.carry) {
      var e := c.acc + c.carry + [LF];
      FlattenAppend(c.events, [e]);
      FlattenOne(e);
      assert Flatten(c.events) + e + ([] + []) == Flatten(c.events) + (c.acc + c.carry) + [LF];
    } else {
      assert Rest(Push(c, b)) == Rest(c) + [b];
    }
  }

  /** What CutFrom has cut so far, laid end to end, is what it was given. */
  lemma {:induction false} CutKeepsBytes(s: Bytes)
    ensures var c := CutFrom(START, s); Flatten(c.events) + Rest(c) == s
  {
    if s != [] {
      CutKeepsBytes(s[..|s| - 1]);
      PushKeepsBytes(CutFrom(START, s[..|s| - 1]), s[|s| - 1]);
      assert s == s[..|s| - 1] + [s[|s| - 1]];
    }
  }

  lemma CutOne(c: Cut, b: byte)
    ensures CutFrom(c, [b]) == Push(c, b)
  {
    assert [b][..0] == [];
  }

  /** One more byte of a stream is one more byte of the event under way. */
  lemma PushIsWhole(c: Cut, b: byte)
    requires AllEventsWhole(c.events) && CutFrom(START, Rest(c)) == Cut([], c.acc, c.carry)
    ensures var d := Push(c, b);
      AllEventsWhole(d.events) && CutFrom(START, Rest(d)) == Cut([], d.acc, d.carry)
  {
    var d := Push(c, b);
    CutAppend(START, Rest(c), [b]);
    CutOne(Cut([], c.acc, c.carry), b);
    if b == LF && BlankLine(c.carry) {
      assert c.acc + c.carry + [LF] == Rest(c) + [b];
      assert [] + [c.acc + c.carry + [LF]] == [c.acc + c.carry + [LF]];
      assert CutFrom(START, []) == START;
    } else {
      assert Rest(d) == Rest(c) + [b];
    }
  }

  /** The event under way is cut by itself as it is cut in the stream. */
  lemma {:induction false} CutIsWhole(s: Bytes)
    ensures var c := CutFrom(START, s);
      AllEventsWhole(c.events) && CutFrom(START, Rest(c)) == Cut([], c.acc, c.carry)
  {
    if s != [] {
      CutIsWhole(s[..|s| - 1]);
      PushIsWhole(CutFrom(START, s[..|s| - 1]), s[|s| - 1]);
    }
  }

  lemma AllEventsWellCut(s: Bytes)
    ensures WellCut(AllEvents(s)) && Flatten(AllEvents(s)) == s
  {
    CutKeepsBytes(s);
    CutIsWhole(s);
    var c := CutFrom(START, s);
    if Rest(c) != [] {
      FlattenAppend(c.events, [Rest(c)]);
      FlattenOne(Rest(c));
      assert (c.events + [Rest(c)])[..|c.events|] == c.events;
    } else {
      assert Flatten(c.events) + [] == Flatten(c.events);
    }
  }

  lemma {:induction false} CutWholes(evs: seq<Bytes>)
    requires AllEventsWhole(evs)
    ensures CutFrom(START, Flatten(evs)) == Cut(evs, [], [])
  {
    if evs != [] {
      var before, e := evs[..|evs| - 1], evs[|evs| - 1];
      assert evs == before + [e];
      CutWholes(before);
      CutNextWhole(before, e);
    }
  }

  lemma CutNextWhole(before: seq<Bytes>, e: Bytes)
    requires CutFrom(START, Flatten(before)) == Cut(before, [], []) && IsEvent(e)
    ensures CutFrom(START, Flatten(before + [e])) == Cut(before + [e], [], [])
  {
    FlattenAppend(before, [e]);
    FlattenOne(e);
    CutAppend(START, Flatten(before), e);
    CutAfter(before, START, e);
    assert before + [] == before;
  }

  lemma CutOpen(evs: seq<Bytes>, last: Bytes)
    requires AllEventsWhole(evs) && IsOpen(last)
    ensures AllEvents(Flatten(evs) + last) == evs + [last]
  {
    CutWholes(evs);
    CutAppend(START, Flatten(evs), last);
    CutAfter(evs, START, last);
    CutKeepsBytes(last);
    var c := CutFrom(START, last);
    assert evs + [] == evs;
    assert Flatten(c.events) + Rest(c) == Rest(c);
  }

  /** Gluing well-cut events together and cutting again gives them back. */
  lemma CutFlatten(evs: seq<Bytes>)
    requires WellCut(evs)
    ensures AllEvents(Flatten(evs)) == evs
  {
    if evs != [] {
      var n := |evs| - 1;
      assert evs == evs[..n] + [evs[n]];
      if IsEvent(evs[n]) {
        CutWholes(evs);
      } else {
        CutOpen(evs[..n], evs[n]);
      }
    }
  }

  // ----- reading fields

  const DATA: Bytes := [0x64, 0x61, 0x74, 0x61]
  const EVENT: Bytes := [0x65, 0x76, 0x65, 0x6E, 0x74]

  datatype Parsed = Parsed(event: Bytes, parts: seq<Bytes>)

  const NOTHING := Parsed([], [])

  function JoinLF(parts: seq<Bytes>): Bytes {
    if parts == [] then []
    else if |parts| == 1 then parts[0]
    else JoinLF(parts[..|parts| - 1]) + [LF] + parts[|parts| - 1]
  }

  function FieldName(line: Bytes): Bytes {
    var i := IndexOf(line, COLON);
    if i < 0 then line else line[..i]
  }

  /** What follows the colon, one space after it dropped. */
  function FieldValue(line: Bytes): Bytes {
    var i := IndexOf(line, COLON);
    var rest := if i < 0 then [] else line[i + 1..];
    if rest != [] && rest[0] == SPACE then rest[1..] else rest
  }

  /** One line, its trailing CRs dropped. */
  function FieldRead(line: Bytes, p: Parsed): Parsed {
    if line == [] || line[0] == COLON then p
    else if FieldName(line) == EVENT then p.(event := FieldValue(line))
    else if FieldName(line) == DATA then p.(parts := p.parts + [FieldValue(line)])
    else p
  }

  function FieldsRead(lines: seq<Bytes>, p: Parsed): Parsed {
    if lines == [] then p else FieldRead(TrimCR(lines[|lines| - 1]), FieldsRead(lines[..|lines| - 1], p))
  }

  /** The fields of an event's lines; a last line without LF counts. */
  function ReadFields(raw: Bytes): Parsed {
    var l := ScanLines(Lines([], []), raw);
    FieldRead(TrimCR(l.cur), FieldsRead(l.done, NOTHING))
  }

  function EventName(raw: Bytes): Bytes {
    ReadFields(raw).event
  }

  function EventData(raw: Bytes): Bytes {
    JoinLF(ReadFields(raw).parts)
  }

  /** bytes.Cut at the colon, and the space after it. */
  method SplitField(line: Bytes) returns (field: Bytes, value: Bytes)
    ensures field == FieldName(line) && value == FieldValue(line)
  {
    field, value := line, [];
    var colon := IndexOf(line, COLON);
    if colon >= 0 {
      field, value := line[..colon], line[colon + 1..];
      if value != [] && value[0] == SPACE {
        value := value[1..];
      }
    }
  }

  /** The switch on a line's field name in parseSSEFields. */
  method ReadField(line: Bytes, event0: Bytes, parts0: seq<Bytes>) returns (event: Bytes, parts: seq<Bytes>)
    ensures Parsed(event, parts) == FieldRead(line, Parsed(event0, parts0))
  {
    event, parts := event0, parts0;
    if line == [] || line[0] == COLON {
      return;
    }
    var field, value := SplitField(line);
    if field == EVENT {
      event := value;
    } else if field == DATA {
      parts := parts + [value];
    }
  }

  method ParseSseFields(raw: Bytes) returns (event: Bytes, data: Bytes)
    ensures event == EventName(raw) && data == EventData(raw)
  {
    var rest := raw;
    var parts: seq<Bytes> := [];
    event := [];
    ghost var lines: seq<Bytes> := [];
    ghost var last: Bytes := [];
    assert TrimCR([]) == [];
    while rest != []
      invariant ScanLines(Lines(lines, last), rest) == ScanLines(Lines([], []), raw)
      invariant last != [] ==> rest == []
      invariant Parsed(event, parts) == FieldRead(TrimCR(last), FieldsRead(lines, NOTHING))
      decreases |rest|
    {
      var i := IndexOf(rest, LF);
      var line;
      if i >= 0 {
        ScanNextLine(lines, rest);
        line, rest := rest[..i], rest[i + 1..];
        event, parts := ReadField(TrimCR(line), event, parts);
        assert (lines + [line])[..|lines|] == lines;
        lines := lines + [line];
      } else {
        ScanPlain(Lines(lines, []), rest);
        assert [] + rest == rest;
        line, rest := rest, [];
        event, parts := ReadField(TrimCR(line), event, parts);
        last := line;
      }
    }
    data := JoinLF(parts);
  }

  lemma {:induction false} LinesHaveNoLF(s: Bytes)
    ensures var l := ScanLines(Lines([], []), s); LF !in l.cur && forall i :: 0 <= i < |l.done| ==> LF !in l.done[i]
  {
    if s != [] { LinesHaveNoLF(s[..|s| - 1]); }
  }

  lemma FieldReadClean(line: Bytes, p: Parsed)
    requires LF !in line && OneLine(p.event)
    ensures OneLine(FieldRead(TrimCR(line), p).event)
  {
    var t := TrimCR(line);
    assert LF !in t;
  }

  lemma {:induction false} FieldsReadClean(lines: seq<Bytes>)
    requires forall i :: 0 <= i < |lines| ==> LF !in lines[i]
    ensures OneLine(FieldsRead(lines, NOTHING).event)
  {
    if lines != [] {
      FieldsReadClean(lines[..|lines| - 1]);
      FieldReadClean(lines[|lines| - 1], FieldsRead(lines[..|lines| - 1], NOTHING));
    }
  }

  lemma EventNameClean(raw: Bytes)
    ensures OneLine(EventName(raw))
  {
    LinesHaveNoLF(raw);
    var l := ScanLines(Lines([], []), raw);
    FieldsReadClean(l.done);
    FieldReadClean(l.cur, FieldsRead(l.done, NOTHING));
  }

  // ----- writing a merged event

  function FieldLine(field: Bytes, value: Bytes): Bytes {
    field + [COLON, SPACE] + value
  }

  /** flushPending's encoding of a merged event. */
  function Frame(name: Bytes, json: Bytes): Bytes {
    (if name == [] then [] else FieldLine(EVENT, name) + [LF]) + (FieldLine(DATA, json) + [LF] + [LF])
  }

  lemma FieldLineColon(field: Bytes, value: Bytes)
    requires field == EVENT || field == DATA
    ensures var line := FieldLine(field, value);
      IndexOf(line, COLON) == |field| < |line| && line[..|field|] == field && line[|field| + 1..] == [SPACE] + value
  {
    var line := FieldLine(field, value);
    assert line[|field|] == COLON;
    assert forall j :: 0 <= j < |field| ==> line[j] == field[j] && field[j] != COLON;
  }

  lemma FieldLineRead(field: Bytes, value: Bytes, p: Parsed)
    requires field == EVENT || field == DATA
    requires value == [] || value[|value| - 1] != CR
    ensures TrimCR(FieldLine(field, value)) == FieldLine(field, value)
    ensures FieldRead(FieldLine(field, value), p)
         == if field == EVENT then p.(event := value) else p.(parts := p.parts + [value])
  {
    var line := FieldLine(field, value);
    assert line[|line| - 1] != CR;
    FieldLineColon(field, value);
    assert ([SPACE] + value)[1..] == value;
  }

  lemma FieldLineNotBlank(field: Bytes, value: Bytes)
    requires field == EVENT || field == DATA
    requires LF !in value
    ensures LF !in FieldLine(field, value) && !BlankLine(FieldLine(field, value))
  {
    assert FieldLine(field, value)[0] == field[0];
  }

  lemma LineJoins(acc: Bytes, line: Bytes)
    requires LF !in line && !BlankLine(line)
    ensures CutFrom(Cut([], acc, []), line + [LF]) == Cut([], acc + (line + [LF]), [])
  {
    CutLine(Cut([], acc, []), line);
    Assoc([], line, []);
    Assoc(acc, line, [LF]);
  }

  lemma BlankEnds(acc: Bytes)
    ensures CutFrom(Cut([], acc, []), [LF]) == Cut([acc + [LF]], [], [])
  {
    CutLine(Cut([], acc, []), []);
    Assoc([], [LF], []);
    assert acc + [] == acc;
  }

  /** A line that is not blank, then a blank one. */
  lemma EventLinesCut(acc: Bytes, line: Bytes)
    requires LF !in line && !BlankLine(line)
    ensures CutFrom(Cut([], acc, []), line + [LF] + [LF]) == Cut([acc + (line + [LF] + [LF])], [], [])
  {
    CutAppend(Cut([], acc, []), line + [LF], [LF]);
    LineJoins(acc, line);
    BlankEnds(acc + (line + [LF]));
    Assoc(acc, line + [LF], [LF]);
  }

  lemma DataLinesCut(acc: Bytes, json: Bytes)
    requires OneLine(json)
    ensures CutFrom(Cut([], acc, []), FieldLine(DATA, json) + [LF] + [LF])
         == Cut([acc + (FieldLine(DATA, json) + [LF] + [LF])], [], [])
  {
    FieldLineNotBlank(DATA, json);
    EventLinesCut(acc, FieldLine(DATA, json));
  }

  lemma FrameIsEvent(name: Bytes, json: Bytes)
    requires OneLine(name) && OneLine(json)
    ensures IsEvent(Frame(name, json))
  {
    var tail := FieldLine(DATA, json) + [LF] + [LF];
    if name == [] {
      DataLinesCut([], json);
      assert Frame(name, json) == tail && [] + tail == tail;
    } else {
      var line := FieldLine(EVENT, name);
      FieldLineNotBlank(EVENT, name);
      CutAppend(START, line + [LF], tail);
      CutLine(START, line);
      assert [] + line == line;
      DataLinesCut(line + [LF], json);
    }
  }

  lemma FrameLines(l: Lines, json: Bytes)
    requires OneLine(json) && l.cur == []
    ensures ScanLines(l, FieldLine(DATA, json) + [LF] + [LF]) == Lines(l.done + [FieldLine(DATA, json)] + [[]], [])
  {
    var line := FieldLine(DATA, json);
    FieldLineNotBlank(DATA, json);
    ScanAppend(l, line + [LF], [LF]);
    ScanOneLine(l, line);
    assert [] + line == line && [] + [LF] == [LF];
    var none: Bytes := [];
    assert none + none == none;
    ScanOneLine(Lines(l.done + [line], none), none);
  }

  lemma FieldsReadDataFrame(lines: seq<Bytes>, json: Bytes)
    requires OneLine(json)
    ensures FieldsRead(lines + [FieldLine(DATA, json)] + [[]], NOTHING)
         == var p := FieldsRead(lines, NOTHING); p.(parts := p.parts + [json])
  {
    var line := FieldLine(DATA, json);
    var all := lines + [line] + [[]];
    assert all[..|all| - 1] == lines + [line];
    assert (lines + [line])[..|lines|] == lines;
    FieldLineRead(DATA, json, FieldsRead(lines, NOTHING));
    assert TrimCR([]) == [];
  }

  lemma UnnamedFrameFields(json: Bytes)
    requires OneLine(json)
    ensures ReadFields(Frame([], json)) == Parsed([], [json])
  {
    assert TrimCR([]) == [];
    assert NOTHING.parts + [json] == [json];
    assert Frame([], json) == FieldLine(DATA, json) + [LF] + [LF];
    FrameLines(Lines([], []), json);
    FieldsReadDataFrame([], json);
  }

  lemma NamedFrameFields(name: Bytes, json: Bytes)
    requires name != [] && OneLine(name) && OneLine(json)
    ensures ReadFields(Frame(name, json)) == Parsed(name, [json])
  {
    var l, line := Lines([], []), FieldLine(EVENT, name);
    assert TrimCR([]) == [];
    FieldLineNotBlank(EVENT, name);
    ScanAppend(l, line + [LF], FieldLine(DATA, json) + [LF] + [LF]);
    ScanOneLine(l, line);
    assert [] + line == line && [] + [line] == [line];
    FrameLines(Lines([line], []), json);
    FieldsReadNameFrame(name, json);
  }

  lemma FrameFields(name: Bytes, json: Bytes)
    requires OneLine(name) && OneLine(json)
    ensures ReadFields(Frame(name, json)) == Parsed(name, [json])
  {
    if name == [] { UnnamedFrameFields(json); } else { NamedFrameFields(name, json); }
  }

  lemma FieldsReadNameFrame(name: Bytes, json: Bytes)
    requires OneLine(name) && OneLine(json)
    ensures FieldsRead([FieldLine(EVENT, name)] + [FieldLine(DATA, json)] + [[]], NOTHING) == Parsed(name, [json])
  {
    var line := FieldLine(EVENT, name);
    FieldsReadDataFrame([line], json);
    assert [line][..0] == [];
    FieldLineRead(EVENT, name, NOTHING);
    assert NOTHING.parts + [json] == [json];
  }

  /** A merged event on the wire reads back as it was. */
  lemma FrameReadsBack(name: Bytes, json: Bytes)
    requires OneLine(name) && OneLine(json)
    ensures EventName(Frame(name, json)) == name && EventData(Frame(name, json)) == json
  {
    FrameFields(name, json);
  }
}
