/** The coalescing of sse_log.go over a list of events: one pending event, flushed
    when the next one does not join it. */
module Coalescer {
  import opened Sequences
  import opened Options
  import opened Bytes
  import opened Json
  import opened MergeKeys
  import opened Merge
  import opened SseWire
  import opened JsonCodec

  datatype Delta = Delta(event: Bytes, obj: Fields, key: Key)

  /** sseMergeable on a raw event; None passes through. */
  function Classify(cd: Codec, raw: Bytes): Option<Delta> {
    match cd.decode(EventData(raw))
    case None => None
    case Some(obj) =>
      match MergeKey(obj)
      case None => None
      case Some(key) => Some(Delta(EventName(raw), obj, key))
  }

  datatype Pending = Pending(raw: Bytes, event: Bytes, obj: Fields, key: Key, merged: bool)

  /** The write calls made so far, and the event held back. */
  datatype Core = Core(out: seq<Bytes>, pending: Option<Pending>)

  const IDLE := Core([], None)

  function PendingBytes(cd: Codec, p: Pending): Bytes {
    if p.merged then Frame(p.event, cd.encode(p.obj)) else p.raw
  }

  /** writeOut: an empty write is not made. */
  function WrittenOut(out: seq<Bytes>, p: Bytes): seq<Bytes> {
    if p == [] then out else out + [p]
  }

  function Flushed(cd: Codec, core: Core): Core {
    match core.pending
    case None => core
    case Some(p) => Core(WrittenOut(core.out, PendingBytes(cd, p)), None)
  }

  function Started(cd: Codec, core: Core, raw: Bytes, item: Delta): Core {
    Flushed(cd, core).(pending := Some(Pending(raw, item.event, item.obj, item.key, false)))
  }

  function Handled(cd: Codec, core: Core, raw: Bytes): Core {
    match Classify(cd, raw)
    case None => Core(WrittenOut(Flushed(cd, core).out, raw), None)
    case Some(item) =>
      if core.pending.Some? && core.pending.value.key == item.key then
        match Merged(core.pending.value.obj, item.obj)
        case Some(obj) => core.(pending := Some(core.pending.value.(obj := obj, merged := true)))
        case None => Started(cd, core, raw, item)
      else Started(cd, core, raw, item)
  }

  function HandledAll(cd: Codec, core: Core, evs: seq<Bytes>): Core {
    if evs == [] then core else Handled(cd, HandledAll(cd, core, evs[..|evs| - 1]), evs[|evs| - 1])
  }

  /** The events written for a finished list of events. */
  function OutEvents(cd: Codec, evs: seq<Bytes>): seq<Bytes> {
    Flushed(cd, HandledAll(cd, IDLE, evs)).out
  }

  /** The compacted transcript of a byte stream. */
  function Compact(cd: Codec, s: Bytes): Bytes {
    Flatten(OutEvents(cd, AllEvents(s)))
  }

  lemma {:induction false} HandledAllFold(cd: Codec, core: Core, evs: seq<Bytes>)
    ensures HandledAll(cd, core, evs) == Fold((c, e) => Handled(cd, c, e), core, evs)
  {
    if evs != [] { HandledAllFold(cd, core, evs[..|evs| - 1]); }
  }

  lemma HandledAllAppend(cd: Codec, core: Core, a: seq<Bytes>, b: seq<Bytes>)
    ensures HandledAll(cd, core, a + b) == HandledAll(cd, HandledAll(cd, core, a), b)
  {
    HandledAllFold(cd, core, a);
    HandledAllFold(cd, HandledAll(cd, core, a), b);
    HandledAllFold(cd, core, a + b);
    FoldAppend((c, e) => Handled(cd, c, e), core, a, b);
  }

  lemma HandledAllSplit(cd: Codec, core: Core, evs: seq<Bytes>, n: nat)
    requires n <= |evs|
    ensures HandledAll(cd, core, evs) == HandledAll(cd, HandledAll(cd, core, evs[..n]), evs[n..])
  {
    Halves(evs, n);
    HandledAllAppend(cd, core, evs[..n], evs[n..]);
  }

  lemma HandledOne(cd: Codec, core: Core, raw: Bytes)
    ensures HandledAll(cd, core, [raw]) == Handled(cd, core, raw)
  {
    assert [raw][..0] == [];
  }
}
