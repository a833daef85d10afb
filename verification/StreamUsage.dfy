/** copySSE of usage.go: the pump with the usage fold as its scan. */
module StreamUsage {
  import opened Bytes
  import opened Pump
  import Usage

  type LineParser = Bytes -> Usage.Counts

  function Reports(parse: LineParser, lines: seq<Bytes>): seq<Usage.Counts> {
    seq(|lines|, i requires 0 <= i < |lines| => parse(lines[i]))
  }

  method CopySse(parse: LineParser, w: Writes, ops: seq<ReadOp>) returns (u: Usage.Counts, outcome: Outcome)
    requires ops != [] && ops[|ops| - 1].err.Some?
    ensures Plain(w, ops, |ops|).status == Done(outcome)
    ensures u == Usage.Folded(Usage.ZERO, Reports(parse, Plain(w, ops, |ops|).lines))
  {
    var c := new Copier(w);
    outcome := c.PumpPlain(ops);
    u := Usage.FoldLines(parse, c.lines);
  }

  /** The usage of a stream copied to its end is that of its bytes: neither the reads it came
      in nor the keepalives in between matter. */
  lemma UsageDoesNotDependOnReads(parse: LineParser, w: Writes, ops: seq<ReadOp>, v: Writes, others: seq<ReadOp>)
    requires var s, t := Plain(w, ops, |ops|), Plain(v, others, |others|);
      s.status == t.status == Done(Copied) && s.sent == t.sent && ShortLines(s.sent)
    ensures Usage.Folded(Usage.ZERO, Reports(parse, Plain(w, ops, |ops|).lines))
         == Usage.Folded(Usage.ZERO, Reports(parse, Plain(v, others, |others|).lines))
  {
    LinesDoNotDependOnReads(w, ops, |ops|);
    LinesDoNotDependOnReads(v, others, |others|);
  }

  /** So a keepalive run that ends by itself reports what the plain loop reports. */
  lemma KeepaliveUsage(parse: LineParser, w: Writes, pingOk: Writes, ops: seq<ReadOp>,
                       run: seq<Keepalive>, steps: seq<Step>, i: nat)
    requires IsRun(w, pingOk, ops, run, steps) && i < |run|
    requires run[i].pump.status.Done? && run[i].pump.status != Done(PingFailed)
    ensures Reports(parse, run[i].pump.lines) == Reports(parse, Plain(w, ops, |ops|).lines)
    ensures Usage.Folded(Usage.ZERO, Reports(parse, run[i].pump.lines))
         == Usage.Folded(Usage.ZERO, Reports(parse, Plain(w, ops, |ops|).lines))
  {
    KeepaliveEndsAsPlain(w, pingOk, ops, run, steps, i);
  }
}
