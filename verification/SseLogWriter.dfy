/** The streaming writer of sse_log.go, and the proof that how the stream is cut into
    writes does not matter. */
module SseLogWriter {
  import opened Options
  import opened Bytes
  import opened Json
  import opened MergeKeys
  import opened MergeLoops
  import opened SseWire
  import opened JsonCodec
  import opened Coalescer

  // ----- the specification of one write

  /** The writer's fields by value. */
  datatype Log = Log(core: Core, acc: Bytes, carry: Bytes)

  const FRESH := Log(IDLE, [], [])

  /** One turn of consume's loop: a line, with its LF, moves to acc; a blank one ends the
      event. */
  function LineTaken(cd: Codec, l: Log, i: nat): (r: Log)
    requires i < |l.carry|
    ensures |r.carry| == |l.carry| - i - 1
  {
    var line := l.carry[..i + 1];
    var acc := l.acc + line;
    if BlankLine(line) then Log(Handled(cd, l.core, acc), [], l.carry[i + 1..])
    else Log(l.core, acc, l.carry[i + 1..])
  }

  /** consume's loop. */
  function Consumed(cd: Codec, l: Log): Log
    decreases |l.carry|
  {
    var i := IndexOf(l.carry, LF);
    if i < 0 then l else Consumed(cd, LineTaken(cd, l, i))
  }

  function SpilledOver(cd: Codec, l: Log): Log {
    if |l.acc| + |l.carry| > MAX_MEDIUM_BLOB
    then Log(Core(WrittenOut(WrittenOut(Flushed(cd, l.core).out, l.acc), l.carry), None), [], [])
    else l
  }

  function Wrote(cd: Codec, l: Log, p: Bytes): Log {
    if p == [] then l else SpilledOver(cd, Consumed(cd, l.(carry := l.carry + p)))
  }

  function WroteAll(cd: Codec, l: Log, chunks: seq<Bytes>): Log {
    if chunks == [] then l else Wrote(cd, WroteAll(cd, l, chunks[..|chunks| - 1]), chunks[|chunks| - 1])
  }

  function Closed(cd: Codec, l: Log): Log {
    var core := if l.acc == [] && l.carry == [] then l.core else Handled(cd, l.core, l.acc + l.carry);
    Log(Flushed(cd, core), [], [])
  }

  // ----- the writer itself

  class PendingSse {
    const raw: Bytes
    const event: Bytes
    const key: Key
    var obj: Fields
    var merged: bool

    constructor (raw: Bytes, event: Bytes, obj: Fields, key: Key)
      ensures this.raw == raw && this.event == event && this.key == key && this.obj == obj && !merged
    {
      this.raw, this.event, this.key, this.obj, this.merged := raw, event, key, obj, false;
    }

    ghost function Value(): Pending
      reads this
    {
      Pending(raw, event, obj, key, merged)
    }
  }

  class Writer {
    const cd: Codec
    var out: seq<Bytes>
    var carry: Bytes
    var acc: Bytes
    var pending: PendingSse?

    ghost function CoreState(): Core
      reads this, pending
    {
      Core(out, if pending == null then None else Some(pending.Value()))
    }

    ghost function State(): Log
      reads this, pending
    {
      Log(CoreState(), acc, carry)
    }

    constructor (cd: Codec)
      ensures this.cd == cd && State() == FRESH && pending == null
    {
      this.cd := cd;
      out, carry, acc, pending := [], [], [], null;
    }

    method WriteOut(p: Bytes)
      modifies this`out
      ensures out == WrittenOut(old(out), p)
    {
      if p == [] {
        return;
      }
      out := out + [p];
    }

    method FlushPending()
      modifies this`out, this`pending
      ensures CoreState() == Flushed(cd, old(CoreState())) && pending == null
    {
      if pending == null {
        return;
      }
      var p := pending;
      pending := null;
      if !p.merged {
        WriteOut(p.raw);
        return;
      }
      var data := cd.encode(p.obj);
      var buf: Bytes := [];
      if p.event != [] {
        buf := buf + EVENT + [COLON, SPACE];
        buf := buf + p.event;
        buf := buf + [LF];
      }
      buf := buf + DATA + [COLON, SPACE];
      buf := buf + data;
      buf := buf + [LF] + [LF];
      assert buf == Frame(p.event, data);
      WriteOut(buf);
    }

    method HandleEvent(raw: Bytes)
      modifies this`out, this`pending, pending
      ensures CoreState() == Handled(cd, old(CoreState()), raw)
      ensures pending == null || pending == old(pending) || fresh(pending)
    {
      var eventName, data := ParseSseFields(raw);
      var item := Mergeable(eventName, data);
      assert item == Classify(cd, raw);
      if item.None? {
        FlushPending();
        WriteOut(raw);
        return;
      }
      var obj, key := item.value.obj, item.value.key;
      if pending != null && pending.key == key {
        var ok, merged := MergeSse(pending.obj, obj);
        pending.obj := merged;
        if ok {
          pending.merged := true;
          return;
        }
      }
      FlushPending();
      pending := new PendingSse(raw, eventName, obj, key);
    }

    method Mergeable(event: Bytes, data: Bytes) returns (item: Option<Delta>)
      ensures item ==
        match cd.decode(data)
        case None => None
        case Some(obj) => match MergeKey(obj) { case None => None case Some(key) => Some(Delta(event, obj, key)) }
    {
      var obj := cd.decode(data);
      if obj.None? {
        return None;
      }
      var key;
      match RouteOf(obj.value) {
        case AnthropicRoute => key := AnthropicKey(obj.value);
        case ResponsesRoute => key := ResponsesKey(obj.value);
        case OpenAIRoute => key := BuildOpenaiMergeKey(obj.value);
        case NoRoute => return None;
      }
      if key.None? {
        return None;
      }
      item := Some(Delta(event, obj.value, key.value));
    }

    method ConsumeLine(i: nat)
      requires i < |carry|
      modifies this, pending
      ensures State() == LineTaken(cd, old(State()), i)
      ensures pending == null || pending == old(pending) || fresh(pending)
    {
      var line := carry[..i + 1];
      carry := carry[i + 1..];
      acc := acc + line;
      if BlankLine(line) {
        var ev := acc;
        acc := [];
        HandleEvent(ev);
      }
    }

    method Consume()
      modifies this, pending
      ensures State() == SpilledOver(cd, Consumed(cd, old(State())))
      ensures |acc| + |carry| <= MAX_MEDIUM_BLOB
      ensures pending == null || pending == old(pending) || fresh(pending)
    {
      while true
        invariant Consumed(cd, State()) == Consumed(cd, old(State()))
        invariant pending == null || pending == old(pending) || fresh(pending)
        decreases |carry|
      {
        var i := IndexOf(carry, LF);
        if i < 0 {
          break;
        }
        ConsumeLine(i);
      }
      assert State() == Consumed(cd, old(State()));
      if |acc| + |carry| > MAX_MEDIUM_BLOB {
        FlushPending();
        WriteOut(acc);
        WriteOut(carry);
        acc := [];
        carry := [];
      }
    }

    method Write(p: Bytes) returns (n: nat)
      modifies this, pending
      ensures n == |p|
      ensures State() == Wrote(cd, old(State()), p)
      ensures n > 0 || old(|acc| + |carry|) <= 16_777_215 ==> |acc| + |carry| <= 16_777_215
      ensures pending == null || pending == old(pending) || fresh(pending)
    {
      n := |p|;
      if n == 0 {
        return;
      }
      carry := carry + p;
      Consume();
    }

    method Flush()
      modifies this, pending
      ensures State() == Closed(cd, old(State()))
    {
      if |acc| > 0 || |carry| > 0 {
        var raw := acc + carry;
        acc := [];
        carry := [];
        HandleEvent(raw);
      }
      FlushPending();
    }
  }
}
