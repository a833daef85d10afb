/** What becomes of a streamed response in the database: the buffer of forward, quoted as a
    JSON string by usage.go, rewritten and clipped by Record of db.go. */
module StoredBlob {
  import opened Options
  import opened Bytes
  import opened SseWire
  import opened JsonCodec
  import opened Coalescer
  import opened Channels
  import opened ChunkTheorems
  import opened SpilledWrites
  import opened SseTheorems
  import opened CapBuffer

  /** json.Marshal on a string. */
  datatype Quoter = Quoter(quote: Bytes -> Bytes)
  {
    /** Two quotes, and no byte of the text becomes less than one. */
    ghost predicate Lawful() {
      forall s :: LongerAt(s)
    }

    ghost predicate LongerAt(s: Bytes) {
      |quote(s)| >= |s| + 2
    }
  }

  function Encoded(q: Quoter, body: Bytes, quoted: bool): Option<Bytes> {
    if body == [] then None else Some(if quoted then q.quote(body) else body)
  }

  function Clipped(b: Option<Bytes>): Option<Bytes> {
    if b.Some? && Storable(|b.value|) then b else None
  }

  method EncodeResponseBlob(q: Quoter, body: Bytes, quoted: bool) returns (b: Option<Bytes>)
    ensures b == Encoded(q, body, quoted)
  {
    if |body| == 0 {
      return None;
    }
    if !quoted {
      return Some(body);
    }
    b := Some(q.quote(body));
  }

  /** The response column of Record. extract is what extractFiles makes of a body. */
  method StoreResponse(retain: int, extract: Bytes -> Bytes, resp: Option<Bytes>) returns (column: Option<Bytes>)
    ensures column ==
      if retain <= 0 || Clipped(resp).None? then None else Clipped(Some(extract(resp.value)))
  {
    var r := resp;
    if retain > 0 {
      if r.Some? && Storable(|r.value|) {
        r := Some(extract(r.value));
      }
    }
    column := if r.None? || |r.value| == 0 || |r.value| > MAX_MEDIUM_BLOB then None else r;
    if retain <= 0 {
      column := None;
    }
  }

  /** The quoted buffer is stored exactly if there is one and its quoted form fits. */
  lemma StoredExactly(q: Quoter, s: Bytes)
    requires q.Lawful()
    ensures var buffer := Prefix(s, MAX_MEDIUM_BLOB);
      Clipped(Encoded(q, buffer, true)) ==
        if s != [] && |q.quote(buffer)| <= 16_777_215 then Some(q.quote(buffer)) else None
  {
    assert q.LongerAt(Prefix(s, MAX_MEDIUM_BLOB));
  }

  /** A buffer that is full, or a byte short of it, is not stored at all. */
  lemma FullBufferIsNotStored(q: Quoter, s: Bytes)
    requires q.Lawful() && |Prefix(s, MAX_MEDIUM_BLOB)| >= 16_777_214
    ensures Clipped(Encoded(q, Prefix(s, MAX_MEDIUM_BLOB), true)) == None
  {
    assert q.LongerAt(Prefix(s, MAX_MEDIUM_BLOB));
  }

  /** So what is stored is never a cut-off transcript: it is all of it or nothing. */
  lemma WholeOrNothing(q: Quoter, s: Bytes)
    requires q.Lawful()
    ensures Clipped(Encoded(q, Prefix(s, MAX_MEDIUM_BLOB), true)) ==
      if s != [] && |q.quote(s)| <= 16_777_215 then Some(q.quote(s)) else None
  {
    assert q.LongerAt(s) && q.LongerAt(Prefix(s, MAX_MEDIUM_BLOB));
  }

  /** A body that is no stream is stored as it is, if it fits. */
  lemma PlainStoredExactly(q: Quoter, body: Bytes)
    ensures Clipped(Encoded(q, body, false)) == if 0 < |body| <= 16_777_215 then Some(body) else None
  {
  }

  /** Whether the transcript of a stream written like this is stored. */
  predicate Kept(cd: Codec, q: Quoter, chunks: seq<Bytes>) {
    var s := Compact(cd, Flatten(chunks));
    !Spills(chunks) && s != [] && |q.quote(s)| <= 16_777_215
  }

  /** What passes the clip is the whole compacted stream: a log that has spilled is too long. */
  lemma KeptExactly(cd: Codec, q: Quoter, chunks: seq<Bytes>)
    requires q.Lawful()
    ensures Clipped(Encoded(q, Prefix(Transcript(cd, chunks), MAX_MEDIUM_BLOB), true)) ==
      if Kept(cd, q, chunks) then Some(q.quote(Compact(cd, Flatten(chunks)))) else None
  {
    WholeOrNothing(q, Transcript(cd, chunks));
    if Spills(chunks) {
      SpilledIsLong(cd, chunks);
      assert q.LongerAt(Transcript(cd, chunks));
    } else {
      ChunksDoNotMatter(cd, chunks);
    }
  }

  /** forward and Record on a stream, from the chunks read to the column. */
  method StoreStream(cd: Codec, q: Quoter, retain: int, extract: Bytes -> Bytes, chunks: seq<Bytes>)
    returns (column: Option<Bytes>)
    requires q.Lawful()
    ensures column ==
      if retain > 0 && Kept(cd, q, chunks) then Clipped(Some(extract(q.quote(Compact(cd, Flatten(chunks)))))) else None
  {
    var buffer := SseBlob(cd, chunks);
    var resp := EncodeResponseBlob(q, buffer, true);
    column := StoreResponse(retain, extract, resp);
    KeptExactly(cd, q, chunks);
  }

  /** So what is stored has lost no text: it is quoted from a transcript in which every channel
      reads as in the stream. */
  lemma StoredTextPreserved(cd: Codec, q: Quoter, chunks: seq<Bytes>, c: Channel)
    requires cd.Lawful() && q.Lawful() && AllSafe(cd, AllEvents(Flatten(chunks))) && ValidChannel(c)
    requires Clipped(Encoded(q, Prefix(Transcript(cd, chunks), MAX_MEDIUM_BLOB), true)).Some?
    ensures Clipped(Encoded(q, Prefix(Transcript(cd, chunks), MAX_MEDIUM_BLOB), true)) == Some(q.quote(Transcript(cd, chunks)))
    ensures StreamText(cd, AllEvents(Transcript(cd, chunks)), c) == StreamText(cd, AllEvents(Flatten(chunks)), c)
  {
    KeptExactly(cd, q, chunks);
    ChunksDoNotMatter(cd, chunks);
    TextPreserved(cd, Flatten(chunks), c);
  }
}
