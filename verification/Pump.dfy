/** pumpStream of usage.go: the plain read loop, and the loop with a reader goroutine
    and a keepalive ticker. */
module Pump {
  import opened Options
  import opened Bytes

  datatype ReadErr = Eof | Broken(text: string)

  /** What one src.Read returns: bytes, an error, both or neither. */
  datatype ReadOp = ReadOp(data: Bytes, err: Option<ReadErr>)

  datatype Outcome = Copied | ReadFailed(e: ReadErr) | WriteFailed | PingFailed

  datatype Status = Running | Done(outcome: Outcome)

  /** sent: what dst has accepted; lines: what scan was called with; writes: dst.Write calls. */
  datatype State = State(sent: Bytes, carry: Bytes, lines: seq<Bytes>, writes: nat, status: Status)

  const INIT := State([], [], [], 0, Running)

  /** maxSSEScan. */
  const MAX_SSE_SCAN: nat := MAX_MEDIUM_BLOB

  function TrimAll(lines: seq<Bytes>): seq<Bytes> {
    seq(|lines|, i requires 0 <= i < |lines| => TrimCR(lines[i]))
  }

  lemma TrimAllAppend(a: seq<Bytes>, b: seq<Bytes>)
    ensures TrimAll(a + b) == TrimAll(a) + TrimAll(b)
  {
  }

  /** The part of consume after a successful dst.Write. */
  function Scanned(s: State, chunk: Bytes): State {
    var l := ScanLines(Lines([], []), s.carry + chunk);
    var lines := s.lines + TrimAll(l.done);
    if |l.cur| > MAX_SSE_SCAN then s.(lines := lines + [l.cur], carry := [])
    else s.(lines := lines, carry := l.cur)
  }

  /** Which dst.Write calls succeed, by their number. */
  type Writes = nat -> bool

  function Consumed(w: Writes, s: State, chunk: Bytes): State {
    if w(s.writes)
    then Scanned(s.(sent := s.sent + chunk, writes := s.writes + 1), chunk)
    else s.(writes := s.writes + 1, status := Done(WriteFailed))
  }

  function Finished(s: State, e: ReadErr): State {
    if e.Eof? then s.(lines := if s.carry == [] then s.lines else s.lines + [s.carry], status := Done(Copied))
    else s.(status := Done(ReadFailed(e)))
  }

  function AfterRead(w: Writes, s: State, op: ReadOp): State {
    var c := if op.data == [] then s else Consumed(w, s, op.data);
    if c.status.Done? || op.err.None? then c else Finished(c, op.err.value)
  }

  /** The plain loop after n reads. */
  function Plain(w: Writes, ops: seq<ReadOp>, n: nat): State
    requires n <= |ops|
  {
    if n == 0 then INIT
    else
      var s := Plain(w, ops, n - 1);
      if s.status.Done? then s else AfterRead(w, s, ops[n - 1])
  }

  lemma {:induction false} PlainStays(w: Writes, ops: seq<ReadOp>, n: nat, m: nat)
    requires n <= m <= |ops| && Plain(w, ops, n).status.Done?
    ensures Plain(w, ops, m) == Plain(w, ops, n)
  {
    if n < m { PlainStays(w, ops, n, m - 1); }
  }

  // ----- the plain loop as written

  class Copier {
    const w: Writes
    var sent: Bytes
    var carry: Bytes
    var lines: seq<Bytes>
    var writes: nat

    constructor (w: Writes)
      ensures this.w == w && Now(Running) == INIT
    {
      this.w := w;
      sent, carry, lines, writes := [], [], [], 0;
    }

    ghost function Now(status: Status): State
      reads this
    {
      State(sent, carry, lines, writes, status)
    }

    method Scan(line: Bytes)
      modifies this`lines
      ensures lines == old(lines) + [line]
    {
      lines := lines + [line];
    }

    /** consume's loop: every whole line is trimmed and scanned. */
    method TakeLines()
      modifies this`carry, this`lines
      ensures var l := ScanLines(Lines([], []), old(carry));
        lines == old(lines) + TrimAll(l.done) && carry == l.cur
    {
      ghost var done: seq<Bytes> := [];
      assert TrimAll(done) == [];
      while true
        invariant ScanLines(Lines(done, []), carry) == ScanLines(Lines([], []), old(carry))
        invariant lines == old(lines) + TrimAll(done)
        decreases |carry|
      {
        var i := IndexOf(carry, LF);
        if i < 0 {
          break;
        }
        ScanNextLine(done, carry);
        TrimAllAppend(done, [carry[..i]]);
        var line := TrimCR(carry[..i]);
        done := done + [carry[..i]];
        carry := carry[i + 1..];
        Scan(line);
      }
      ScanPlain(Lines(done, []), carry);
      assert [] + carry == carry;
    }

    method Consume(chunk: Bytes) returns (ok: bool)
      modifies this
      ensures Now(if ok then Running else Done(WriteFailed)) == Consumed(w, old(Now(Running)), chunk)
      ensures ok ==> |carry| <= 16_777_215
    {
      writes := writes + 1;
      if !w(writes - 1) {
        return false;
      }
      sent := sent + chunk;
      carry := carry + chunk;
      TakeLines();
      if |carry| > MAX_SSE_SCAN {
        Scan(carry);
        carry := [];
      }
      ok := true;
    }

    method Finish(e: ReadErr) returns (outcome: Outcome)
      modifies this`lines
      ensures Now(Done(outcome)) == Finished(old(Now(Running)), e)
    {
      if e.Eof? {
        if |carry| > 0 {
          Scan(carry);
        }
        return Copied;
      }
      outcome := ReadFailed(e);
    }

    /** keepalive <= 0. A stream that ends has a read that returns an error. */
    method PumpPlain(ops: seq<ReadOp>) returns (outcome: Outcome)
      requires Now(Running) == INIT
      requires ops != [] && ops[|ops| - 1].err.Some?
      modifies this
      ensures Now(Done(outcome)) == Plain(w, ops, |ops|)
    {
      var n := 0;
      while n < |ops|
        invariant n <= |ops| && Now(Running) == Plain(w, ops, n)
        invariant n == |ops| ==> Plain(w, ops, n).status.Done?
      {
        var op := ops[n];
        n := n + 1;
        if |op.data| > 0 {
          var ok := Consume(op.data);
          if !ok {
            PlainStays(w, ops, n, |ops|);
            return WriteFailed;
          }
        }
        if op.err.Some? {
          outcome := Finish(op.err.value);
          PlainStays(w, ops, n, |ops|);
          return;
        }
      }
      assert false;
    }
  }

  // ----- the keepalive loop

  /** What a read goroutine puts on readc: a count into buf and an error. */
  datatype Msg = Msg(n: nat, err: Option<ReadErr>)

  datatype Piece = Data(bytes: Bytes) | Comment

  /** reading: goroutines inside src.Read; returned: reads that have returned; taken: ops
      the loop has received; client: the pieces written to the shared client writer. */
  datatype Keepalive = Keepalive(
    pump: State, buf: Bytes, reading: nat, readc: seq<Msg>, returned: nat, taken: nat,
    pings: nat, client: seq<Piece>)

  const STARTED := Keepalive(INIT, [], 1, [], 0, 0, 0, [])

  datatype Step =
    | Scribble(buf: Bytes)  // a read in progress may leave anything in the buffer
    | Return(rest: Bytes)   // a read returns, its bytes at the front of the buffer
    | Receive
    | Tick

  predicate Enabled(ops: seq<ReadOp>, k: Keepalive, step: Step) {
    match step
    case Scribble(_) => k.reading > 0
    case Return(_) => k.reading > 0 && k.returned < |ops|
    case Receive => k.pump.status.Running? && k.readc != []
    case Tick => k.pump.status.Running?
  }

  /** One receive: consume buf[:n], finish or start the next read. */
  function Received(w: Writes, k: Keepalive): Keepalive
    requires k.readc != []
  {
    var msg := k.readc[0];
    var chunk := if msg.n <= |k.buf| then k.buf[..msg.n] else k.buf;
    var pump := AfterRead(w, k.pump, ReadOp(chunk, msg.err));
    k.(pump := pump, readc := k.readc[1..], taken := k.taken + 1,
       client := if |pump.sent| == |k.pump.sent| then k.client else k.client + [Data(chunk)],
       reading := if pump.status.Running? then k.reading + 1 else k.reading)
  }

  function Next(w: Writes, pingOk: Writes, ops: seq<ReadOp>, k: Keepalive, step: Step): Keepalive
    requires Enabled(ops, k, step)
  {
    match step
    case Scribble(buf) => k.(buf := buf)
    case Return(rest) =>
      var op := ops[k.returned];
      k.(buf := op.data + rest, reading := k.reading - 1, returned := k.returned + 1,
         readc := k.readc + [Msg(|op.data|, op.err)])
    case Receive => Received(w, k)
    case Tick =>
      if pingOk(k.pings) then k.(pings := k.pings + 1, client := k.client + [Comment])
      else k.(pings := k.pings + 1, pump := k.pump.(status := Done(PingFailed)))
  }

  predicate IsRun(w: Writes, pingOk: Writes, ops: seq<ReadOp>, run: seq<Keepalive>, steps: seq<Step>) {
    && |run| == |steps| + 1 && run[0] == STARTED
    && forall i :: 0 <= i < |steps| ==>
         Enabled(ops, run[i], steps[i]) && run[i + 1] == Next(w, pingOk, ops, run[i], steps[i])
  }

  function DataOf(client: seq<Piece>): Bytes {
    if client == [] then []
    else DataOf(client[..|client| - 1]) + if client[|client| - 1].Data? then client[|client| - 1].bytes else []
  }

  /** The buffer belongs to one side at a time: a message waiting means no read is writing. */
  predicate BufferOwned(ops: seq<ReadOp>, k: Keepalive) {
    && k.reading + |k.readc| <= 1
    && k.taken + |k.readc| == k.returned <= |ops|
    && (k.pump.status.Running? ==> k.reading + |k.readc| == 1)
    && (k.readc != [] ==> k.readc[0] == Msg(|ops[k.taken].data|, ops[k.taken].err) && ops[k.taken].data <= k.buf)
  }

  /** The loop has done what the plain loop does with the reads it has received. */
  predicate Refines(w: Writes, ops: seq<ReadOp>, k: Keepalive)
    requires k.taken <= |ops|
  {
    if k.pump.status == Done(PingFailed) then k.pump == Plain(w, ops, k.taken).(status := Done(PingFailed))
    else k.pump == Plain(w, ops, k.taken)
  }

  predicate Inv(w: Writes, ops: seq<ReadOp>, k: Keepalive) {
    BufferOwned(ops, k) && Refines(w, ops, k) && DataOf(k.client) == k.pump.sent
  }

  lemma DataOfAppend(client: seq<Piece>, p: Piece)
    ensures DataOf(client + [p]) == DataOf(client) + if p.Data? then p.bytes else []
  {
    assert (client + [p])[..|client|] == client;
  }

  lemma AfterReadSends(w: Writes, s: State, op: ReadOp)
    ensures var after := AfterRead(w, s, op).sent; after == s.sent || (op.data != [] && after == s.sent + op.data)
    ensures AfterRead(w, s, op).status != Done(PingFailed) || s.status == Done(PingFailed)
  {
  }

  /** What receiving a read amounts to. */
  function Continued(w: Writes, k: Keepalive, op: ReadOp): Keepalive {
    var pump := AfterRead(w, k.pump, op);
    k.(pump := pump, readc := [], taken := k.taken + 1,
       client := if |pump.sent| == |k.pump.sent| then k.client else k.client + [Data(op.data)],
       reading := if pump.status.Running? then 1 else 0)
  }

  lemma ReceivedIs(w: Writes, ops: seq<ReadOp>, k: Keepalive)
    requires BufferOwned(ops, k) && Enabled(ops, k, Receive)
    ensures k.reading == 0 && k.taken < |ops| && Received(w, k) == Continued(w, k, ops[k.taken])
  {
    var op := ops[k.taken];
    assert k.buf[..|op.data|] == op.data;
    assert k.readc[1..] == [];
  }

  lemma ContinuedSends(w: Writes, k: Keepalive, op: ReadOp)
    requires DataOf(k.client) == k.pump.sent
    ensures DataOf(Continued(w, k, op).client) == Continued(w, k, op).pump.sent
  {
    AfterReadSends(w, k.pump, op);
    DataOfAppend(k.client, Data(op.data));
  }

  lemma ReceiveKeepsInv(w: Writes, ops: seq<ReadOp>, k: Keepalive)
    requires Inv(w, ops, k) && Enabled(ops, k, Receive)
    ensures Inv(w, ops, Received(w, k)) && k.reading == 0
  {
    ReceivedIs(w, ops, k);
    ContinuedSends(w, k, ops[k.taken]);
    AfterReadSends(w, k.pump, ops[k.taken]);
  }

  /** A tick touches neither the buffer nor what the loop has done, except to end it. */
  lemma TickOwned(w: Writes, pingOk: Writes, ops: seq<ReadOp>, k: Keepalive)
    requires BufferOwned(ops, k) && Enabled(ops, k, Tick)
    ensures BufferOwned(ops, Next(w, pingOk, ops, k, Tick))
  {
  }

  lemma TickRefines(w: Writes, pingOk: Writes, ops: seq<ReadOp>, k: Keepalive, plain: State)
    requires Enabled(ops, k, Tick) && k.pump == plain
    ensures var next := Next(w, pingOk, ops, k, Tick);
      next.pump == if next.pump.status == Done(PingFailed) then plain.(status := Done(PingFailed)) else plain
  {
  }

  lemma TickSends(w: Writes, pingOk: Writes, ops: seq<ReadOp>, k: Keepalive)
    requires Enabled(ops, k, Tick) && DataOf(k.client) == k.pump.sent
    ensures DataOf(Next(w, pingOk, ops, k, Tick).client) == Next(w, pingOk, ops, k, Tick).pump.sent
  {
    DataOfAppend(k.client, Comment);
    assert k.pump.sent + [] == k.pump.sent;
  }

  lemma TickKeepsInv(w: Writes, pingOk: Writes, ops: seq<ReadOp>, k: Keepalive)
    requires Inv(w, ops, k) && Enabled(ops, k, Tick)
    ensures Inv(w, ops, Next(w, pingOk, ops, k, Tick))
  {
    TickOwned(w, pingOk, ops, k);
    TickRefines(w, pingOk, ops, k, Plain(w, ops, k.taken));
    TickSends(w, pingOk, ops, k);
  }

  lemma ReturnKeepsInv(w: Writes, pingOk: Writes, ops: seq<ReadOp>, k: Keepalive, rest: Bytes)
    requires Inv(w, ops, k) && Enabled(ops, k, Return(rest))
    ensures Inv(w, ops, Next(w, pingOk, ops, k, Return(rest)))
  {
    var op := ops[k.returned];
    assert op.data <= op.data + rest;
    assert k.readc == [] && k.readc + [Msg(|op.data|, op.err)] == [Msg(|op.data|, op.err)];
  }

  lemma ScribbleKeepsInv(w: Writes, pingOk: Writes, ops: seq<ReadOp>, k: Keepalive, buf: Bytes)
    requires Inv(w, ops, k) && Enabled(ops, k, Scribble(buf))
    ensures Inv(w, ops, Next(w, pingOk, ops, k, Scribble(buf)))
  {
  }

  lemma StepKeepsInv(w: Writes, pingOk: Writes, ops: seq<ReadOp>, k: Keepalive, step: Step)
    requires Inv(w, ops, k) && Enabled(ops, k, step)
    ensures Inv(w, ops, Next(w, pingOk, ops, k, step))
  {
    match step
    case Receive => ReceiveKeepsInv(w, ops, k);
    case Tick => TickKeepsInv(w, pingOk, ops, k);
    case Return(rest) => ReturnKeepsInv(w, pingOk, ops, k, rest);
    case Scribble(buf) => ScribbleKeepsInv(w, pingOk, ops, k, buf);
  }

  /** In every interleaving of reads and ticks: at most one read is outstanding, none while
      a chunk is consumed, and dst, the scanned lines and the result are the plain loop's. */
  lemma {:induction false} KeepaliveRefinesPlain(
    w: Writes, pingOk: Writes, ops: seq<ReadOp>, run: seq<Keepalive>, steps: seq<Step>, i: nat)
    requires IsRun(w, pingOk, ops, run, steps) && i < |run|
    ensures Inv(w, ops, run[i])
    ensures i < |steps| && steps[i].Receive? ==> run[i].reading == 0
  {
    if i > 0 {
      KeepaliveRefinesPlain(w, pingOk, ops, run, steps, i - 1);
      StepKeepsInv(w, pingOk, ops, run[i - 1], steps[i - 1]);
    }
    if i < |steps| && steps[i].Receive? {
      ReceiveKeepsInv(w, ops, run[i]);
    }
  }

  /** A keepalive run that ends by itself ends as the whole plain run does. */
  lemma KeepaliveEndsAsPlain(
    w: Writes, pingOk: Writes, ops: seq<ReadOp>, run: seq<Keepalive>, steps: seq<Step>, i: nat)
    requires IsRun(w, pingOk, ops, run, steps) && i < |run|
    requires run[i].pump.status.Done? && run[i].pump.status != Done(PingFailed)
    ensures run[i].pump == Plain(w, ops, |ops|)
  {
    KeepaliveRefinesPlain(w, pingOk, ops, run, steps, i);
    PlainStays(w, ops, run[i].taken, |ops|);
  }

  // ----- what scan sees

  predicate ShortLines(s: Bytes) {
    forall n :: 0 <= n <= |s| ==> |ScanLines(Lines([], []), s[..n]).cur| <= 16_777_215
  }

  lemma {:induction false} ScanAfter(done: seq<Bytes>, cur: Bytes, t: Bytes)
    ensures ScanLines(Lines(done, cur), t)
         == Lines(done + ScanLines(Lines([], cur), t).done, ScanLines(Lines([], cur), t).cur)
  {
    if t == [] {
      assert done + [] == done;
    } else {
      var n := |t| - 1;
      ScanAfter(done, cur, t[..n]);
      var l := ScanLines(Lines([], cur), t[..n]);
      assert done + l.done + [l.cur] == done + (l.done + [l.cur]);
    }
  }

  lemma {:induction false} CurHasNoLF(s: Bytes)
    ensures LF !in ScanLines(Lines([], []), s).cur
  {
    if s != [] { CurHasNoLF(s[..|s| - 1]); }
  }

  lemma ScannedFollows(s: State, sent: Bytes, chunk: Bytes)
    requires var l := ScanLines(Lines([], []), sent); s.lines == TrimAll(l.done) && s.carry == l.cur
    requires |ScanLines(Lines([], []), sent + chunk).cur| <= MAX_SSE_SCAN
    ensures var l := ScanLines(Lines([], []), sent + chunk);
      Scanned(s, chunk).lines == TrimAll(l.done) && Scanned(s, chunk).carry == l.cur
  {
    var l := ScanLines(Lines([], []), sent);
    CurHasNoLF(sent);
    ScanPlain(Lines([], []), l.cur);
    assert [] + l.cur == l.cur;
    ScanAppend(Lines([], []), l.cur, chunk);
    ScanAppend(Lines([], []), sent, chunk);
    ScanAfter(l.done, l.cur, chunk);
    TrimAllAppend(l.done, ScanLines(Lines([], l.cur), chunk).done);
  }

  /** scan has seen the whole lines of what was sent, and at the end the last one. */
  predicate LinesSeen(s: State) {
    var l := ScanLines(Lines([], []), s.sent);
    s.carry == l.cur
    && s.lines == TrimAll(l.done) + if s.status == Done(Copied) && l.cur != [] then [l.cur] else []
  }

  lemma ConsumedLinesSeen(w: Writes, s: State, chunk: Bytes)
    requires s.status.Running? && LinesSeen(s) && ShortLines(Consumed(w, s, chunk).sent)
    ensures LinesSeen(Consumed(w, s, chunk))
  {
    if w(s.writes) {
      var sent := s.sent + chunk;
      assert sent[..|sent|] == sent;
      assert s.lines == TrimAll(ScanLines(Lines([], []), s.sent).done);
      ScannedFollows(s.(sent := sent, writes := s.writes + 1), s.sent, chunk);
    }
  }

  lemma AfterReadLinesSeen(w: Writes, s: State, op: ReadOp)
    requires s.status.Running? && LinesSeen(s) && ShortLines(AfterRead(w, s, op).sent)
    ensures LinesSeen(AfterRead(w, s, op))
  {
    var c := if op.data == [] then s else Consumed(w, s, op.data);
    if op.data != [] { ConsumedLinesSeen(w, s, op.data); }
    if c.status.Running? && op.err.Some? {
      var l := ScanLines(Lines([], []), c.sent);
      assert c.lines == TrimAll(l.done);
    }
  }

  lemma ShortLinesPrefix(s: Bytes, t: Bytes)
    requires s <= t && ShortLines(t)
    ensures ShortLines(s)
  {
    assert forall n :: 0 <= n <= |s| ==> s[..n] == t[..n];
  }

  /** Without over-long lines, scan sees the lines of what was sent, however it was read. */
  lemma {:induction false} LinesDoNotDependOnReads(w: Writes, ops: seq<ReadOp>, n: nat)
    requires n <= |ops| && ShortLines(Plain(w, ops, n).sent)
    ensures LinesSeen(Plain(w, ops, n))
  {
    if n == 0 {
      assert TrimAll([]) == [];
    } else {
      var before := Plain(w, ops, n - 1);
      if before.status.Running? {
        AfterReadSends(w, before, ops[n - 1]);
        ShortLinesPrefix(before.sent, Plain(w, ops, n).sent);
        LinesDoNotDependOnReads(w, ops, n - 1);
        AfterReadLinesSeen(w, before, ops[n - 1]);
      } else {
        LinesDoNotDependOnReads(w, ops, n - 1);
      }
    }
  }
}
