/** What a keepalive run of pumpStream writes to the client, told from its steps alone, and
    that every plain run is one. */
module KeepaliveRuns {
  import opened Bytes
  import opened Pump

  // ----- the plain loop, read by read

  function DataUpTo(ops: seq<ReadOp>, n: nat): Bytes
    requires n <= |ops|
  {
    if n == 0 then [] else DataUpTo(ops, n - 1) + ops[n - 1].data
  }

  /** A loop that is running has sent all it has read, in as many writes as reads brought bytes. */
  lemma {:induction false} PlainSends(w: Writes, ops: seq<ReadOp>, n: nat)
    requires n <= |ops| && Plain(w, ops, n).status.Running?
    ensures Plain(w, ops, n).sent == DataUpTo(ops, n) && Plain(w, ops, n).writes == Chunks(ops, n)
  {
    if n > 0 {
      PlainSends(w, ops, n - 1);
      var s, data := Plain(w, ops, n - 1), ops[n - 1].data;
      ReadWrites(w, s, ops[n - 1]);
      if data == [] { assert s.sent + data == s.sent; }
    }
  }

  /** An unfinished line is carried on, unless it is over the cap: then it is scanned as it is. */
  lemma RestCarried(s: State, chunk: Bytes)
    ensures var l, next := ScanLines(Lines([], []), s.carry + chunk), Scanned(s, chunk);
      && next.carry == (if |l.cur| <= 16_777_215 then l.cur else [])
      && next.lines == s.lines + TrimAll(l.done) + if |l.cur| <= 16_777_215 then [] else [l.cur]
  {
  }

  /** How the next read leaves the loop: ended by a write that fails, whatever the read says, or
      else by the read's own error, the end of the stream being none. */
  lemma ReadEnds(w: Writes, ops: seq<ReadOp>, n: nat)
    requires n < |ops| && Plain(w, ops, n).status.Running?
    ensures Plain(w, ops, n + 1).status ==
      if ops[n].data != [] && !w(Chunks(ops, n)) then Done(WriteFailed)
      else match ops[n].err
        case None => Running
        case Some(Eof) => Done(Copied)
        case Some(e) => Done(ReadFailed(e))
    ensures Plain(w, ops, n + 1).sent ==
      if ops[n].data != [] && !w(Chunks(ops, n)) then DataUpTo(ops, n) else DataUpTo(ops, n + 1)
  {
    PlainSends(w, ops, n);
    ReadWrites(w, Plain(w, ops, n), ops[n]);
    assert DataUpTo(ops, n) + [] == DataUpTo(ops, n);
  }

  // ----- counting steps

  function Ticks(steps: seq<Step>): nat {
    if steps == [] then 0 else Ticks(steps[..|steps| - 1]) + if steps[|steps| - 1].Tick? then 1 else 0
  }

  function Receives(steps: seq<Step>): nat {
    if steps == [] then 0 else Receives(steps[..|steps| - 1]) + if steps[|steps| - 1].Receive? then 1 else 0
  }

  /** How many of the first n reads brought bytes. */
  function Chunks(ops: seq<ReadOp>, n: nat): nat {
    if n == 0 then 0 else Chunks(ops, n - 1) + if n <= |ops| && ops[n - 1].data != [] then 1 else 0
  }

  /** What the last of some steps writes to the client: the comment, if it is a tick and its
      ping succeeds, or the chunk of the read received, if there is one and its write succeeds. */
  function PieceOf(w: Writes, pingOk: Writes, ops: seq<ReadOp>, before: seq<Step>, step: Step): seq<Piece> {
    match step
    case Tick => if pingOk(Ticks(before)) then [Comment] else []
    case Receive =>
      var n := Receives(before);
      if n < |ops| && ops[n].data != [] && w(Chunks(ops, n)) then [Data(ops[n].data)] else []
    case _ => []
  }

  function PiecesOf(w: Writes, pingOk: Writes, ops: seq<ReadOp>, steps: seq<Step>): seq<Piece> {
    if steps == [] then []
    else
      var before := steps[..|steps| - 1];
      PiecesOf(w, pingOk, ops, before) + PieceOf(w, pingOk, ops, before, steps[|steps| - 1])
  }

  /** The counters of the loop count its steps. */
  predicate Counted(ops: seq<ReadOp>, k: Keepalive, steps: seq<Step>) {
    k.pings == Ticks(steps) && k.taken == Receives(steps) <= |ops| && k.pump.writes == Chunks(ops, k.taken)
  }

  lemma CountsStep(steps: seq<Step>, step: Step)
    ensures Ticks(steps + [step]) == Ticks(steps) + if step.Tick? then 1 else 0
    ensures Receives(steps + [step]) == Receives(steps) + if step.Receive? then 1 else 0
  {
    assert (steps + [step])[..|steps|] == steps;
  }

  lemma ReadWrites(w: Writes, s: State, op: ReadOp)
    requires s.status.Running?
    ensures AfterRead(w, s, op).writes == s.writes + if op.data == [] then 0 else 1
    ensures AfterRead(w, s, op).sent == s.sent + if op.data != [] && w(s.writes) then op.data else []
  {
  }

  /** What receiving a read does to the writes and to the client. */
  lemma ContinuedWrites(w: Writes, k: Keepalive, op: ReadOp)
    requires k.pump.status.Running?
    ensures var next := Continued(w, k, op);
      && next.pings == k.pings && next.taken == k.taken + 1
      && next.pump.writes == k.pump.writes + (if op.data == [] then 0 else 1)
      && next.client == k.client + if op.data != [] && w(k.pump.writes) then [Data(op.data)] else []
  {
    ReadWrites(w, k.pump, op);
  }

  lemma ReceiveCounted(w: Writes, pingOk: Writes, ops: seq<ReadOp>, k: Keepalive, steps: seq<Step>)
    requires Inv(w, ops, k) && Enabled(ops, k, Receive) && Counted(ops, k, steps)
    ensures var next := Next(w, pingOk, ops, k, Receive);
      && Counted(ops, next, steps + [Receive])
      && next.client == k.client + PieceOf(w, pingOk, ops, steps, Receive)
  {
    ReceivedIs(w, ops, k);
    CountsStep(steps, Receive);
    ContinuedWrites(w, k, ops[k.taken]);
  }

  lemma StepCounted(w: Writes, pingOk: Writes, ops: seq<ReadOp>, k: Keepalive, steps: seq<Step>, step: Step)
    requires Inv(w, ops, k) && Enabled(ops, k, step) && Counted(ops, k, steps)
    ensures var next := Next(w, pingOk, ops, k, step);
      && Counted(ops, next, steps + [step])
      && next.client == k.client + PieceOf(w, pingOk, ops, steps, step)
  {
    if step.Receive? {
      ReceiveCounted(w, pingOk, ops, k, steps);
    } else {
      CountsStep(steps, step);
    }
  }

  lemma PiecesStep(w: Writes, pingOk: Writes, ops: seq<ReadOp>, steps: seq<Step>, step: Step)
    ensures PiecesOf(w, pingOk, ops, steps + [step]) == PiecesOf(w, pingOk, ops, steps) + PieceOf(w, pingOk, ops, steps, step)
  {
    assert (steps + [step])[..|steps|] == steps;
  }

  /** The counters count the steps, and the client has their pieces. */
  predicate Tracked(w: Writes, pingOk: Writes, ops: seq<ReadOp>, k: Keepalive, steps: seq<Step>) {
    Counted(ops, k, steps) && k.client == PiecesOf(w, pingOk, ops, steps)
  }

  lemma StepTracked(w: Writes, pingOk: Writes, ops: seq<ReadOp>, k: Keepalive, steps: seq<Step>, step: Step)
    requires Inv(w, ops, k) && Enabled(ops, k, step) && Tracked(w, pingOk, ops, k, steps)
    ensures Tracked(w, pingOk, ops, Next(w, pingOk, ops, k, step), steps + [step])
  {
    StepCounted(w, pingOk, ops, k, steps, step);
    PiecesStep(w, pingOk, ops, steps, step);
  }

  lemma StepOf(w: Writes, pingOk: Writes, ops: seq<ReadOp>, run: seq<Keepalive>, steps: seq<Step>, i: nat)
    requires IsRun(w, pingOk, ops, run, steps) && i < |steps|
    ensures i + 1 < |run| && Enabled(ops, run[i], steps[i]) && run[i + 1] == Next(w, pingOk, ops, run[i], steps[i])
    ensures steps[..i + 1] == steps[..i] + [steps[i]]
  {
  }

  lemma {:induction false} RunTracked(
    w: Writes, pingOk: Writes, ops: seq<ReadOp>, run: seq<Keepalive>, steps: seq<Step>, i: nat)
    requires IsRun(w, pingOk, ops, run, steps) && i < |run|
    ensures Tracked(w, pingOk, ops, run[i], steps[..i])
  {
    if i > 0 {
      RunTracked(w, pingOk, ops, run, steps, i - 1);
      KeepaliveRefinesPlain(w, pingOk, ops, run, steps, i - 1);
      StepOf(w, pingOk, ops, run, steps, i - 1);
      StepTracked(w, pingOk, ops, run[i - 1], steps[..i - 1], steps[i - 1]);
    }
  }

  /** In every run the client has been written, in the order of the steps, one comment for each
      tick whose ping succeeded and the chunk of each read whose write succeeded. */
  lemma ClientGetsSteps(
    w: Writes, pingOk: Writes, ops: seq<ReadOp>, run: seq<Keepalive>, steps: seq<Step>, i: nat)
    requires IsRun(w, pingOk, ops, run, steps) && i < |run|
    ensures run[i].client == PiecesOf(w, pingOk, ops, steps[..i])
  {
    RunTracked(w, pingOk, ops, run, steps, i);
  }

  // ----- pings that fail

  lemma {:induction false} DoneStays(
    w: Writes, pingOk: Writes, ops: seq<ReadOp>, run: seq<Keepalive>, steps: seq<Step>, i: nat, j: nat)
    requires IsRun(w, pingOk, ops, run, steps) && i <= j < |run| && run[i].pump.status.Done?
    ensures run[j].pump == run[i].pump && run[j].client == run[i].client
  {
    if i < j {
      DoneStays(w, pingOk, ops, run, steps, i, j - 1);
      assert Enabled(ops, run[j - 1], steps[j - 1]) && run[j] == Next(w, pingOk, ops, run[j - 1], steps[j - 1]);
    }
  }

  /** The n-th tick ends the run with the error of its ping exactly if that ping fails, and
      then the client gets nothing more. */
  lemma PingFailureEnds(
    w: Writes, pingOk: Writes, ops: seq<ReadOp>, run: seq<Keepalive>, steps: seq<Step>, i: nat)
    requires IsRun(w, pingOk, ops, run, steps) && i < |steps| && steps[i].Tick?
    ensures run[i + 1].pump.status == if pingOk(Ticks(steps[..i])) then Running else Done(PingFailed)
    ensures !pingOk(Ticks(steps[..i])) ==>
      forall j :: i < j < |run| ==> run[j].pump.status == Done(PingFailed) && run[j].client == run[i].client
  {
    RunTracked(w, pingOk, ops, run, steps, i);
    assert Enabled(ops, run[i], steps[i]) && run[i + 1] == Next(w, pingOk, ops, run[i], steps[i]);
    if !pingOk(Ticks(steps[..i])) {
      forall j | i < j < |run| ensures run[j].pump.status == Done(PingFailed) && run[j].client == run[i].client {
        DoneStays(w, pingOk, ops, run, steps, i + 1, j);
      }
    }
  }

  // ----- every plain run, with a tick wherever one comes

  lemma RunExtends(w: Writes, pingOk: Writes, ops: seq<ReadOp>, run: seq<Keepalive>, steps: seq<Step>, step: Step)
    requires IsRun(w, pingOk, ops, run, steps) && Enabled(ops, run[|run| - 1], step)
    ensures IsRun(w, pingOk, ops, run + [Next(w, pingOk, ops, run[|run| - 1], step)], steps + [step])
  {
    var next := run + [Next(w, pingOk, ops, run[|run| - 1], step)];
    forall i | 0 <= i < |steps + [step]|
      ensures Enabled(ops, next[i], (steps + [step])[i]) && next[i + 1] == Next(w, pingOk, ops, next[i], (steps + [step])[i])
    {
      if i < |steps| { assert next[i] == run[i] && next[i + 1] == run[i + 1] && (steps + [step])[i] == steps[i]; }
    }
  }

  /** A loop that is running can tick. */
  lemma CanTick(w: Writes, pingOk: Writes, ops: seq<ReadOp>, run: seq<Keepalive>, steps: seq<Step>)
    requires IsRun(w, pingOk, ops, run, steps) && run[|run| - 1].pump.status.Running?
    ensures IsRun(w, pingOk, ops, run + [Next(w, pingOk, ops, run[|run| - 1], Tick)], steps + [Tick])
  {
    RunExtends(w, pingOk, ops, run, steps, Tick);
  }

  /** A read in progress may leave anything in the buffer, and when it returns it has its bytes
      at the front and anything behind them. */
  lemma ReadsMayScribble(w: Writes, pingOk: Writes, ops: seq<ReadOp>, run: seq<Keepalive>, steps: seq<Step>, buf: Bytes)
    requires IsRun(w, pingOk, ops, run, steps) && run[|run| - 1].reading > 0
    ensures var next := run[|run| - 1].(buf := buf); IsRun(w, pingOk, ops, run + [next], steps + [Scribble(buf)])
    ensures run[|run| - 1].returned < |ops| ==>
      var k := run[|run| - 1];
      var op := ops[k.returned];
      var next := k.(buf := op.data + buf, reading := k.reading - 1, returned := k.returned + 1,
                     readc := k.readc + [Msg(|op.data|, op.err)]);
      IsRun(w, pingOk, ops, run + [next], steps + [Return(buf)])
  {
    RunExtends(w, pingOk, ops, run, steps, Scribble(buf));
    if run[|run| - 1].returned < |ops| { RunExtends(w, pingOk, ops, run, steps, Return(buf)); }
  }

  /** One more read: it returns, and the loop receives it. */
  lemma OneMoreRead(w: Writes, pingOk: Writes, ops: seq<ReadOp>, run: seq<Keepalive>, steps: seq<Step>)
    returns (longer: seq<Keepalive>, more: seq<Step>)
    requires IsRun(w, pingOk, ops, run, steps)
    requires var k := run[|run| - 1]; k.pump.status.Running? && k.readc == [] && k.taken < |ops|
    ensures IsRun(w, pingOk, ops, longer, more)
    ensures var k, last := run[|run| - 1], longer[|longer| - 1];
      last.taken == k.taken + 1 && last.readc == [] && last.pump == AfterRead(w, k.pump, ops[k.taken])
  {
    var k := run[|run| - 1];
    KeepaliveRefinesPlain(w, pingOk, ops, run, steps, |run| - 1);
    RunExtends(w, pingOk, ops, run, steps, Return([]));
    var returned := Next(w, pingOk, ops, k, Return([]));
    longer, more := run + [returned], steps + [Return([])];
    KeepaliveRefinesPlain(w, pingOk, ops, longer, more, |longer| - 1);
    ReceivedIs(w, ops, returned);
    RunExtends(w, pingOk, ops, longer, more, Receive);
    longer, more := longer + [Next(w, pingOk, ops, returned, Receive)], more + [Receive];
  }

  /** Any number of plain reads is a keepalive run without ticks, ending in the same state. */
  lemma {:induction false} PlainIsARun(w: Writes, pingOk: Writes, ops: seq<ReadOp>, n: nat)
    returns (run: seq<Keepalive>, steps: seq<Step>)
    requires n <= |ops| && (n > 0 ==> Plain(w, ops, n - 1).status.Running?)
    ensures IsRun(w, pingOk, ops, run, steps)
    ensures var last := run[|run| - 1]; last.taken == n && last.readc == [] && last.pump == Plain(w, ops, n)
  {
    run, steps := [STARTED], [];
    if n > 0 {
      run, steps := PlainIsARun(w, pingOk, ops, n - 1);
      run, steps := OneMoreRead(w, pingOk, ops, run, steps);
    }
  }
}
