/** Byte strings and the few functions of package bytes the models use. */
module Bytes {

  newtype byte = x: int | 0 <= x < 256

  type Bytes = seq<byte>

  /** maxMediumBlob of db.go. */
  const MAX_MEDIUM_BLOB: nat := 0xFF_FFFF

  /** The length of a blob that is stored: retainableBlob and clipBlob of db.go. */
  predicate Storable(size: nat) {
    0 < size <= MAX_MEDIUM_BLOB
  }

  const LF: byte := 10
  const CR: byte := 13
  const SPACE: byte := 32
  const COLON: byte := 58

  /** No LF inside and no CR at the end: what is left of a line the code has trimmed. */
  predicate OneLine(s: Bytes) {
    LF !in s && (s != [] ==> s[|s| - 1] != CR)
  }

  function IndexFrom(s: Bytes, b: byte, start: nat): (i: int)
    requires start <= |s|
    ensures i == -1 || start <= i < |s|
    ensures i >= 0 ==> s[i] == b
    ensures forall j :: start <= j < (if i < 0 then |s| else i) ==> s[j] != b
    decreases |s| - start
  {
    if start == |s| then -1
    else if s[start] == b then start
    else IndexFrom(s, b, start + 1)
  }

  /** bytes.IndexByte. */
  function IndexOf(s: Bytes, b: byte): (i: int)
    ensures -1 <= i < |s|
    ensures i >= 0 ==> s[i] == b
    ensures forall j :: 0 <= j < (if i < 0 then |s| else i) ==> s[j] != b
  {
    IndexFrom(s, b, 0)
  }

  function TrimmedLen(s: Bytes, n: nat): (m: nat)
    requires n <= |s|
    ensures m <= n
    ensures m > 0 ==> s[m - 1] != CR
    ensures forall i :: m <= i < n ==> s[i] == CR
  {
    if n > 0 && s[n - 1] == CR then TrimmedLen(s, n - 1) else n
  }

  /** bytes.TrimRight(s, "\r"). */
  function TrimCR(s: Bytes): (t: Bytes)
    ensures t <= s
    ensures t != [] ==> t[|t| - 1] != CR
    ensures forall i :: |t| <= i < |s| ==> s[i] == CR
  {
    s[..TrimmedLen(s, |s|)]
  }

  function Flatten(parts: seq<Bytes>): Bytes {
    if parts == [] then [] else Flatten(parts[..|parts| - 1]) + parts[|parts| - 1]
  }

  lemma {:induction false} FlattenAppend(a: seq<Bytes>, b: seq<Bytes>)
    ensures Flatten(a + b) == Flatten(a) + Flatten(b)
  {
    if b == [] {
      assert a + b == a;
    } else {
      FlattenAppend(a, b[..|b| - 1]);
      assert (a + b)[..|a + b| - 1] == a + b[..|b| - 1];
    }
  }

  lemma FlattenOne(e: Bytes)
    ensures Flatten([e]) == e
  {
    assert [e][..0] == [];
    assert Flatten([]) + e == e;
  }

  // ----- lines

  /** The lines of a byte stream, LFs dropped, and the unfinished line after them. */
  datatype Lines = Lines(done: seq<Bytes>, cur: Bytes)

  function PushByte(l: Lines, b: byte): Lines {
    if b == LF then Lines(l.done + [l.cur], []) else Lines(l.done, l.cur + [b])
  }

  function ScanLines(l: Lines, s: Bytes): Lines {
    if s == [] then l else PushByte(ScanLines(l, s[..|s| - 1]), s[|s| - 1])
  }

  lemma {:induction false} ScanAppend(l: Lines, s: Bytes, t: Bytes)
    ensures ScanLines(l, s + t) == ScanLines(ScanLines(l, s), t)
  {
    if t == [] {
      assert s + t == s;
    } else {
      ScanAppend(l, s, t[..|t| - 1]);
      assert (s + t)[..|s + t| - 1] == s + t[..|t| - 1];
    }
  }

  lemma {:induction false} ScanPlain(l: Lines, t: Bytes)
    requires LF !in t
    ensures ScanLines(l, t) == Lines(l.done, l.cur + t)
  {
    if t == [] {
      assert l.cur + t == l.cur;
    } else {
      assert t[|t| - 1] in t;
      ScanPlain(l, t[..|t| - 1]);
      assert l.cur + t == l.cur + t[..|t| - 1] + [t[|t| - 1]];
    }
  }

  lemma ScanOneLine(l: Lines, t: Bytes)
    requires LF !in t
    ensures ScanLines(l, t + [LF]) == Lines(l.done + [l.cur + t], [])
  {
    ScanPlain(l, t);
    assert (t + [LF])[..|t|] == t;
  }

  /** Taking the first line off a stream. */
  lemma ScanNextLine(lines: seq<Bytes>, s: Bytes)
    requires IndexOf(s, LF) >= 0
    ensures var i := IndexOf(s, LF);
      ScanLines(Lines(lines, []), s) == ScanLines(Lines(lines + [s[..i]], []), s[i + 1..])
  {
    var i := IndexOf(s, LF);
    var line, rest := s[..i], s[i + 1..];
    assert s == line + [LF] + rest;
    ScanAppend(Lines(lines, []), line + [LF], rest);
    ScanOneLine(Lines(lines, []), line);
    assert [] + line == line;
  }
}
