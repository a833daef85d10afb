/** The wire format spelled out: what the writer's frames, the client's comments and the lines
    of an upstream look like as text. */
module WireText {
  import opened Sequences
  import opened Bytes
  import opened SseWire
  import opened KeepaliveComments

  /** The bytes of an ASCII text. */
  function Ascii(s: string): (b: Bytes)
    requires forall i :: 0 <= i < |s| ==> s[i] as int < 128
    ensures |b| == |s| && forall i :: 0 <= i < |s| ==> b[i] as int == s[i] as int
  {
    seq(|s|, i requires 0 <= i < |s| => s[i] as int as byte)
  }

  /** The name and the data of a merged event, each on a line of its own, and a blank line. */
  lemma FrameSpelled(name: Bytes, json: Bytes)
    ensures Frame(name, json) ==
      (if name == [] then [] else Ascii("event: ") + name + Ascii("\n")) + (Ascii("data: ") + json + Ascii("\n\n"))
  {
    assert EVENT + [COLON, SPACE] == Ascii("event: ");
    assert DATA + [COLON, SPACE] == Ascii("data: ");
    assert [LF] == Ascii("\n");
    assert FieldLine(DATA, json) + [LF] + [LF] == FieldLine(DATA, json) + Ascii("\n\n");
  }

  lemma CommentSpelled()
    ensures COMMENT == Ascii(":\n\n")
  {
  }

  /** With or without a space after the colon, lines ended by LF or by CR and LF: an event of one
      data line ends with its blank line and has what is on the line for data. */
  lemma DataLineRead(gap: string, json: Bytes, eol: string)
    requires gap == "" || gap == " "
    requires eol == "\n" || eol == "\r\n"
    requires OneLine(json) && (gap == "" && json != [] ==> json[0] as int != 32)
    ensures var e := Ascii("data:") + Ascii(gap) + json + Ascii(eol) + Ascii(eol);
      IsEvent(e) && ReadFields(e) == Parsed([], [json])
  {
    var line := Ascii("data:") + Ascii(gap) + json;
    var cr := if eol == "\n" then [] else [CR];
    LineSpelled(line, eol, cr);
    LineIsData(gap, json);
    assert line[0] == Ascii("data:")[0] == DATA[0];
    DataLineWhole(line, cr);
  }

  lemma DataLineWhole(line: Bytes, cr: Bytes)
    requires LF !in line && line != [] && line[0] == DATA[0] && line[|line| - 1] != CR && (cr == [] || cr == [CR])
    ensures var e := (line + cr) + [LF] + (cr + [LF]); IsEvent(e) && ReadFields(e) == FieldRead(line, NOTHING)
  {
    assert (line + cr)[0] == DATA[0];
    LineThenBlank(line + cr, cr);
    LineTrimmed(line, cr);
  }

  lemma LineSpelled(line: Bytes, eol: string, cr: Bytes)
    requires (eol == "\n" && cr == []) || (eol == "\r\n" && cr == [CR])
    ensures line + Ascii(eol) + Ascii(eol) == (line + cr) + [LF] + (cr + [LF])
  {
    assert Ascii(eol) == cr + [LF];
    Assoc(line, cr, [LF]);
  }

  /** A line that is not blank, then a blank one. */
  lemma LineThenBlank(line: Bytes, blank: Bytes)
    requires LF !in line && !BlankLine(line) && (blank == [] || blank == [CR])
    ensures var e := line + [LF] + (blank + [LF]); IsEvent(e) && ReadFields(e) == FieldRead(TrimCR(line), NOTHING)
  {
    LineThenBlankCut(line, blank);
    LineThenBlankRead(line, blank);
  }

  lemma LineThenBlankCut(line: Bytes, blank: Bytes)
    requires LF !in line && !BlankLine(line) && (blank == [] || blank == [CR])
    ensures IsEvent(line + [LF] + (blank + [LF]))
  {
    CutAppend(START, line + [LF], blank + [LF]);
    LineJoins([], line);
    Assoc([], line + [LF], []);
    CrBlankEnds(line + [LF], blank);
  }

  lemma CrBlankEnds(acc: Bytes, blank: Bytes)
    requires blank == [] || blank == [CR]
    ensures CutFrom(Cut([], acc, []), blank + [LF]) == Cut([acc + (blank + [LF])], [], [])
  {
    CutLine(Cut([], acc, []), blank);
    Assoc([], blank, []);
    Assoc(acc, blank, [LF]);
  }

  lemma LineThenBlankRead(line: Bytes, blank: Bytes)
    requires LF !in line && (blank == [] || blank == [CR])
    ensures ReadFields(line + [LF] + (blank + [LF])) == FieldRead(TrimCR(line), NOTHING)
  {
    var none: Bytes := [];
    ScanAppend(Lines([], []), line + [LF], blank + [LF]);
    ScanOneLine(Lines([], none), line);
    ScanOneLine(Lines([line], none), blank);
    Assoc(none, line, none);
    Assoc(none, blank, none);
    assert TrimCR(none) == none && TrimCR(blank) == none;
    var done := [line] + [blank];
    assert [] + [line] == [line];
    assert ScanLines(Lines([], none), line + [LF]) == Lines([line], none);
    assert ScanLines(Lines([], none), line + [LF] + (blank + [LF])) == Lines(done, none);
    TwoLinesRead(line, blank);
  }

  lemma TwoLinesRead(line: Bytes, blank: Bytes)
    ensures FieldsRead([line] + [blank], NOTHING) == FieldRead(TrimCR(blank), FieldRead(TrimCR(line), NOTHING))
  {
    var done := [line];
    var both := done + [blank];
    assert both[..1] == done && done[..0] == [];
    assert FieldsRead(done, NOTHING) == FieldRead(TrimCR(line), FieldsRead([], NOTHING));
    assert FieldsRead(both, NOTHING) == FieldRead(TrimCR(blank), FieldsRead(done, NOTHING));
  }

  lemma LineTrimmed(line: Bytes, cr: Bytes)
    requires (cr == [] || cr == [CR]) && line != []
    requires line[|line| - 1] != CR
    ensures TrimCR(line + cr) == line
  {
    var all := line + cr;
    assert all[|line| - 1] == line[|line| - 1];
    assert cr == [CR] ==> all[|line|] == CR;
    assert TrimCR(all) == all[..|TrimCR(all)|];
    assert all[..|line|] == line;
  }

  /** The field line of a text after the colon. */
  lemma DataLineIs(rest: Bytes)
    ensures var line := Ascii("data:") + rest;
      |line| == 5 + |rest| && FieldName(line) == DATA && line[0] != COLON
      && FieldValue(line) == if rest != [] && rest[0] == SPACE then rest[1..] else rest
  {
    var line := Ascii("data:") + rest;
    assert line[4] == COLON;
    assert forall j :: 0 <= j < 4 ==> line[j] == DATA[j] && DATA[j] != COLON;
    assert IndexOf(line, COLON) == 4;
    assert line[..4] == DATA && line[5..] == rest;
  }

  lemma LineIsData(gap: string, json: Bytes)
    requires gap == "" || gap == " "
    requires OneLine(json) && (gap == "" && json != [] ==> json[0] as int != 32)
    ensures var line := Ascii("data:") + Ascii(gap) + json;
      line[|line| - 1] != CR && FieldRead(line, NOTHING) == Parsed([], [json])
  {
    var rest := Ascii(gap) + json;
    DataLineIs(rest);
    Assoc(Ascii("data:"), Ascii(gap), json);
    if gap == " " { assert rest[0] == SPACE && rest[1..] == json; } else { assert rest == json; }
    assert NOTHING.parts + [json] == [json];
    LastOfLine(gap, json);
  }

  lemma LastOfLine(gap: string, json: Bytes)
    requires (gap == "" || gap == " ") && OneLine(json)
    ensures var line := Ascii("data:") + Ascii(gap) + json; line[|line| - 1] != CR
  {
    var line := Ascii("data:") + Ascii(gap) + json;
    if json != [] { assert line[|line| - 1] == json[|json| - 1]; }
  }
}
