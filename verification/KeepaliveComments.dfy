/** What a client makes of the keepalive comments pumpStream puts between the chunks:
    an event stream parser (section 9.2.6 of the WHATWG HTML Living Standard, LF line
    ends with CRs trimmed) run over the client's bytes and over the upstream's. */
module KeepaliveComments {
  import opened Bytes
  import opened SseWire
  import opened Pump

  datatype Message = Message(event: Bytes, data: Bytes)

  /** Messages dispatched, the fields of the event under way, and its unfinished line. */
  datatype Parser = Parser(msgs: seq<Message>, cur: Parsed, line: Bytes)

  const FRESH := Parser([], NOTHING, [])

  /** An event without data is not dispatched. */
  function Dispatched(cur: Parsed): seq<Message> {
    if cur.parts == [] then [] else [Message(cur.event, JoinLF(cur.parts))]
  }

  function Fed(p: Parser, b: byte): Parser {
    if b != LF then p.(line := p.line + [b])
    else
      var line := TrimCR(p.line);
      if line == [] then Parser(p.msgs + Dispatched(p.cur), NOTHING, [])
      else Parser(p.msgs, FieldRead(line, p.cur), [])
  }

  function FedAll(p: Parser, s: Bytes): Parser {
    if s == [] then p else Fed(FedAll(p, s[..|s| - 1]), s[|s| - 1])
  }

  /** sseComment. */
  const COMMENT: Bytes := [COLON, LF, LF]

  function BytesOf(client: seq<Piece>): Bytes {
    if client == [] then []
    else
      var piece := client[|client| - 1];
      BytesOf(client[..|client| - 1]) + if piece.Data? then piece.bytes else COMMENT
  }

  lemma {:induction false} FedAppend(p: Parser, s: Bytes, t: Bytes)
    ensures FedAll(p, s + t) == FedAll(FedAll(p, s), t)
  {
    if t == [] {
      assert s + t == s;
    } else {
      FedAppend(p, s, t[..|t| - 1]);
      assert (s + t)[..|s + t| - 1] == s + t[..|t| - 1];
    }
  }

  lemma {:induction false} FedPlain(p: Parser, t: Bytes)
    requires LF !in t
    ensures FedAll(p, t) == p.(line := p.line + t)
  {
    if t == [] {
      assert p.line + t == p.line;
    } else {
      assert t[|t| - 1] in t;
      FedPlain(p, t[..|t| - 1]);
      assert p.line + t == p.line + t[..|t| - 1] + [t[|t| - 1]];
    }
  }

  /** A line that is not blank, then a blank line. */
  lemma FedEvent(p: Parser, t: Bytes)
    requires LF !in t && TrimCR(p.line + t) == p.line + t && p.line + t != []
    ensures FedAll(p, t + [LF] + [LF]) == Parser(p.msgs + Dispatched(FieldRead(p.line + t, p.cur)), NOTHING, [])
  {
    FedPlain(p, t);
    assert (t + [LF] + [LF])[..|t| + 1] == t + [LF];
    assert (t + [LF])[..|t|] == t;
    assert TrimCR([]) == [];
  }

  /** Between events: nothing read of the next one that matters. */
  predicate Quiet(p: Parser) {
    p.cur == NOTHING && p.line == []
  }

  lemma FedComment(p: Parser)
    ensures FedAll(p, COMMENT) == Parser(p.msgs + Dispatched(FieldRead(p.line + [COLON], p.cur)), NOTHING, [])
  {
    assert COMMENT == [COLON] + [LF] + [LF];
    FedEvent(p, [COLON]);
  }

  /** The comments of a client stream all fall where the parser is quiet. */
  predicate CommentsQuiet(client: seq<Piece>) {
    forall i :: 0 <= i < |client| && client[i].Comment? ==> Quiet(FedAll(FRESH, DataOf(client[..i])))
  }

  /** Comments at quiet points are invisible: the parser ends in the same state. */
  lemma {:induction false} CommentsInvisible(client: seq<Piece>)
    requires CommentsQuiet(client)
    ensures FedAll(FRESH, BytesOf(client)) == FedAll(FRESH, DataOf(client))
  {
    if client != [] {
      var n := |client| - 1;
      assert forall i :: 0 <= i < n ==> client[..n][..i] == client[..i];
      CommentsInvisible(client[..n]);
      match client[n] {
        case Data(bytes) =>
          FedAppend(FRESH, BytesOf(client[..n]), bytes);
          FedAppend(FRESH, DataOf(client[..n]), bytes);
        case Comment =>
          var p := FedAll(FRESH, DataOf(client[..n]));
          FedAppend(FRESH, BytesOf(client[..n]), COMMENT);
          FedComment(p);
          assert p.msgs + [] == p.msgs;
          assert DataOf(client) == DataOf(client[..n]);
      }
    }
  }

  /** An event boundary is quiet. */
  lemma {:induction false} BoundaryIsQuiet(s: Bytes)
    ensures var c := CutFrom(START, s); var p := FedAll(FRESH, s);
      p.line == c.carry && (c.acc == [] ==> p.cur == NOTHING)
  {
    if s != [] {
      BoundaryIsQuiet(s[..|s| - 1]);
      CarryHasNoLF(s[..|s| - 1]);
      BlankIsTrimmed(CutFrom(START, s[..|s| - 1]).carry);
    }
  }

  lemma BlankIsTrimmed(line: Bytes)
    requires LF !in line
    ensures BlankLine(line) <==> TrimCR(line) == []
  {
    assert BlankLine(line) <==> forall i :: 0 <= i < |line| ==> line[i] == CR;
    var t := TrimCR(line);
    assert t != [] ==> line[|t| - 1] == t[|t| - 1] != CR;
  }

  // ----- whole runs

  lemma CommentsQuietAppend(client: seq<Piece>, piece: Piece)
    requires CommentsQuiet(client) && (piece.Comment? ==> Quiet(FedAll(FRESH, DataOf(client))))
    ensures CommentsQuiet(client + [piece])
  {
    var after := client + [piece];
    forall i | 0 <= i < |after| && after[i].Comment? ensures Quiet(FedAll(FRESH, DataOf(after[..i]))) {
      if i < |client| { assert after[..i] == client[..i]; } else { assert after[..i] == client; }
    }
  }

  /** Nothing of an event or of a line has been sent after the last whole event. */
  predicate AtBoundary(sent: Bytes) {
    CutFrom(START, sent).acc == [] && CutFrom(START, sent).carry == []
  }

  /** Every tick of the first n steps falls on an event boundary. */
  predicate TicksAtBoundaries(run: seq<Keepalive>, steps: seq<Step>, n: nat)
    requires n <= |steps| <= |run|
  {
    forall j :: 0 <= j < n && steps[j].Tick? ==> AtBoundary(run[j].pump.sent)
  }

  lemma StepKeepsQuiet(w: Writes, pingOk: Writes, ops: seq<ReadOp>, k: Keepalive, step: Step)
    requires Enabled(ops, k, step) && CommentsQuiet(k.client) && DataOf(k.client) == k.pump.sent
    requires step.Tick? ==> AtBoundary(k.pump.sent)
    ensures CommentsQuiet(Next(w, pingOk, ops, k, step).client)
  {
    match step
    case Tick =>
      BoundaryIsQuiet(k.pump.sent);
      CommentsQuietAppend(k.client, Comment);
    case Receive =>
      var msg := k.readc[0];
      CommentsQuietAppend(k.client, Data(if msg.n <= |k.buf| then k.buf[..msg.n] else k.buf));
    case _ =>
  }

  lemma {:induction false} RunKeepsQuiet(
    w: Writes, pingOk: Writes, ops: seq<ReadOp>, run: seq<Keepalive>, steps: seq<Step>, i: nat)
    requires IsRun(w, pingOk, ops, run, steps) && i < |run| && TicksAtBoundaries(run, steps, i)
    ensures CommentsQuiet(run[i].client)
  {
    if i > 0 {
      RunKeepsQuiet(w, pingOk, ops, run, steps, i - 1);
      KeepaliveRefinesPlain(w, pingOk, ops, run, steps, i - 1);
      StepKeepsQuiet(w, pingOk, ops, run[i - 1], steps[i - 1]);
    }
  }

  /** In every interleaving whose ticks fall on event boundaries, the client has parsed what
      it would have parsed of the plain loop after the same reads. */
  lemma ClientParsesThePlainStream(
    w: Writes, pingOk: Writes, ops: seq<ReadOp>, run: seq<Keepalive>, steps: seq<Step>, i: nat)
    requires IsRun(w, pingOk, ops, run, steps) && i < |run| && TicksAtBoundaries(run, steps, i)
    ensures run[i].taken <= |ops|
    ensures FedAll(FRESH, BytesOf(run[i].client)) == FedAll(FRESH, Plain(w, ops, run[i].taken).sent)
  {
    KeepaliveRefinesPlain(w, pingOk, ops, run, steps, i);
    RunKeepsQuiet(w, pingOk, ops, run, steps, i);
    CommentsInvisible(run[i].client);
  }

  // ----- and nowhere else

  ghost predicate Harmless(p: Parser) {
    forall t :: FedAll(FedAll(p, COMMENT), t).msgs == FedAll(p, t).msgs
  }

  const ONE: Bytes := [0x31]

  /** The line data: 1 and a blank line. */
  const PROBE: Bytes := FieldLine(DATA, ONE) + [LF] + [LF]

  lemma ProbeAfterComment(p: Parser)
    ensures FedAll(FedAll(p, COMMENT), PROBE).msgs
         == p.msgs + Dispatched(FieldRead(p.line + [COLON], p.cur)) + [Message([], ONE)]
  {
    FedComment(p);
    var q := FedAll(p, COMMENT);
    FieldLineRead(DATA, ONE, NOTHING);
    FieldLineNotBlank(DATA, ONE);
    assert q.line + FieldLine(DATA, ONE) == FieldLine(DATA, ONE);
    FedEvent(q, FieldLine(DATA, ONE));
    assert NOTHING.parts + [ONE] == [ONE];
  }

  lemma ProbeDirect(p: Parser)
    ensures FedAll(p, PROBE).msgs == p.msgs + Dispatched(FieldRead(p.line + FieldLine(DATA, ONE), p.cur))
  {
    var t := FieldLine(DATA, ONE);
    FieldLineNotBlank(DATA, ONE);
    assert (p.line + t)[|p.line + t| - 1] == ONE[0];
    assert TrimCR(p.line + t) == p.line + t;
    FedEvent(p, t);
  }

  /** Inside a line the probe cannot read as a data field of its own. */
  lemma ProbeInsideLine(line: Bytes, cur: Parsed)
    requires line != [] && LF !in line
    ensures var after := FieldRead(line + FieldLine(DATA, ONE), cur);
      after.parts == cur.parts || (|after.parts| == |cur.parts| + 1 && after.parts[|cur.parts|] != ONE)
  {
    var t := FieldLine(DATA, ONE);
    var l := line + t;
    var i := IndexOf(l, COLON);
    assert l[|line| + 4] == COLON;
    assert 0 <= i <= |line| + 4;
    assert forall j :: |line| <= j < |line| + 4 ==> l[j] == t[j - |line|] != COLON;
    if i == |line| + 4 {
      assert |l[..i]| > 4;
    } else {
      assert |l[i + 1..]| >= |t|;
    }
  }

  /** At any other point the probe tells the two streams apart. */
  lemma LoudIsHarmful(p: Parser)
    requires LF !in p.line && !Quiet(p)
    ensures FedAll(FedAll(p, COMMENT), PROBE).msgs != FedAll(p, PROBE).msgs
  {
    ProbeAfterComment(p);
    ProbeDirect(p);
    var first := FieldRead(p.line + [COLON], p.cur);
    var probed := FieldRead(p.line + FieldLine(DATA, ONE), p.cur);
    var with, without := FedAll(FedAll(p, COMMENT), PROBE).msgs, FedAll(p, PROBE).msgs;
    if first.parts != [] {
      assert |with| == |p.msgs| + 2 > |without|;
    } else {
      assert with == p.msgs + [Message([], ONE)];
      assert p.cur.parts == [];
      if p.line != [] {
        ProbeInsideLine(p.line, p.cur);
        assert probed.parts != [] ==> JoinLF(probed.parts) == probed.parts[0] != ONE;
      } else {
        assert p.line + FieldLine(DATA, ONE) == FieldLine(DATA, ONE);
        FieldLineRead(DATA, ONE, p.cur);
        assert probed.event == p.cur.event != [];
      }
      assert probed.parts != [] ==> Dispatched(probed)[0] != Message([], ONE);
      assert |without| == |with| ==> without[|p.msgs|] == Dispatched(probed)[0];
    }
  }

  /** A comment changes nothing, whatever follows, exactly at the quiet points. */
  lemma HarmlessExactly(p: Parser)
    requires LF !in p.line
    ensures Harmless(p) <==> Quiet(p)
  {
    if Quiet(p) {
      FedComment(p);
      assert p.msgs + [] == p.msgs;
    } else {
      LoudIsHarmful(p);
    }
  }
}
