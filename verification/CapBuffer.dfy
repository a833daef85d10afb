/** proxy.go's capBuffer, and the blob it holds once the coalescer has written to it. */
module CapBuffer {
  import opened Bytes
  import opened JsonCodec
  import opened Coalescer
  import opened SseLogWriter
  import opened ChunkTheorems
  import opened SpilledWrites

  /** The first max bytes, none if max is not positive. */
  function Prefix(s: Bytes, max: int): Bytes {
    if max <= 0 then [] else if |s| <= max then s else s[..max]
  }

  /** It is the longest start of s that fits, and nothing without a limit above zero. */
  lemma PrefixIs(s: Bytes, max: int)
    ensures Prefix(s, max) <= s
    ensures |Prefix(s, max)| == if max <= 0 then 0 else if |s| <= max then |s| else max
  {
  }

  class Buffer {
    const max: int
    var b: Bytes
    /** Everything ever written. */
    ghost var seen: Bytes

    ghost predicate Valid()
      reads this
    {
      b == Prefix(seen, max)
    }

    constructor (max: int)
      ensures Valid() && this.max == max && seen == []
    {
      this.max, b, seen := max, [], [];
    }

    method Write(p: Bytes) returns (n: nat)
      requires Valid()
      modifies this
      ensures Valid() && n == |p| && seen == old(seen) + p
    {
      n := |p|;
      seen := seen + p;
      if max <= 0 || |b| >= max {
        return;
      }
      var left := max - |b|;
      if |p| > left {
        b := b + p[..left];
      } else {
        b := b + p;
      }
    }
  }

  /** Writing a list of chunks to a fresh buffer. */
  method WriteChunks(max: int, chunks: seq<Bytes>) returns (blob: Bytes)
    ensures blob == Prefix(Flatten(chunks), max)
  {
    var buf := new Buffer(max);
    for i := 0 to |chunks|
      invariant buf.Valid() && buf.max == max && buf.seen == Flatten(chunks[..i])
    {
      var _ := buf.Write(chunks[i]);
      assert chunks[..i + 1][..i] == chunks[..i];
    }
    assert chunks[..|chunks|] == chunks;
    blob := buf.b;
  }

  /** forward's SSE log: the chunks read from the upstream, coalesced, capped. */
  method SseBlob(cd: Codec, chunks: seq<Bytes>) returns (blob: Bytes)
    ensures blob == Prefix(Transcript(cd, chunks), MAX_MEDIUM_BLOB)
    ensures !Spills(chunks) ==> blob == Prefix(Compact(cd, Flatten(chunks)), MAX_MEDIUM_BLOB)
    ensures Spills(chunks) ==> |blob| == MAX_MEDIUM_BLOB
  {
    var logw := new Writer(cd);
    for i := 0 to |chunks|
      invariant fresh(logw) && logw.cd == cd
      invariant logw.pending == null || fresh(logw.pending)
      invariant logw.State() == WroteAll(cd, FRESH, chunks[..i])
    {
      var n := logw.Write(chunks[i]);
      assert chunks[..i + 1][..i] == chunks[..i];
    }
    assert chunks[..|chunks|] == chunks;
    logw.Flush();
    if Spills(chunks) { SpilledIsLong(cd, chunks); } else { ChunksDoNotMatter(cd, chunks); }
    blob := WriteChunks(MAX_MEDIUM_BLOB, logw.out);
  }
}
