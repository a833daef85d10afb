/** clipError of db.go over the UTF-8 encoding of section 3 of RFC 3629. */
module ClipError {
  import opened Options
  import opened Bytes

  const MAX_ERROR_LEN: nat := 1024

  predicate Tail(b: byte) {
    0x80 <= b <= 0xBF
  }

  /** The length of the character a string starts with; None if it starts with no character. */
  function RuneLength(s: Bytes): (n: Option<nat>)
    ensures n.Some? ==> 1 <= n.value <= 4 && n.value <= |s|
  {
    if s == [] then None
    else if s[0] <= 0x7F then Some(1)
    else if 0xC2 <= s[0] <= 0xDF && |s| >= 2 && Tail(s[1]) then Some(2)
    else if 0xE0 <= s[0] <= 0xEF && |s| >= 3 && Tail(s[1]) && Tail(s[2])
         && (s[0] == 0xE0 ==> s[1] >= 0xA0) && (s[0] == 0xED ==> s[1] <= 0x9F) then Some(3)
    else if 0xF0 <= s[0] <= 0xF4 && |s| >= 4 && Tail(s[1]) && Tail(s[2]) && Tail(s[3])
         && (s[0] == 0xF0 ==> s[1] >= 0x90) && (s[0] == 0xF4 ==> s[1] <= 0x8F) then Some(4)
    else None
  }

  predicate ValidUtf8(s: Bytes)
    decreases |s|
  {
    s == [] || (RuneLength(s).Some? && ValidUtf8(s[RuneLength(s).value..]))
  }

  // ----- the characters

  /** The Unicode scalar values. */
  predicate Scalar(c: int) {
    0 <= c < 0xD800 || 0xDFFF < c < 0x11_0000
  }

  /** The encoding of a character: its bits in one to four bytes, six to each after the first. */
  function Encoded(c: int): Bytes
    requires Scalar(c)
  {
    if c < 0x80 then [c as byte]
    else if c < 0x800 then [(0xC0 + c / 64) as byte, (0x80 + c % 64) as byte]
    else if c < 0x1_0000 then [(0xE0 + c / 4096) as byte, (0x80 + c / 64 % 64) as byte, (0x80 + c % 64) as byte]
    else [(0xF0 + c / 262144) as byte, (0x80 + c / 4096 % 64) as byte, (0x80 + c / 64 % 64) as byte, (0x80 + c % 64) as byte]
  }

  lemma Sixes(c: int)
    requires 0 <= c
    ensures c == 64 * (c / 64) + c % 64 && c / 64 == 64 * (c / 4096) + c / 64 % 64
    ensures c / 4096 == 64 * (c / 262144) + c / 4096 % 64
  {
    assert c / 64 / 64 == c / 4096 && c / 4096 / 64 == c / 262144;
  }

  /** A string that starts with the encoding of a character starts with a character of that
      length. */
  lemma EncodedIsRune(c: int, rest: Bytes)
    requires Scalar(c)
    ensures RuneLength(Encoded(c) + rest) == Some(|Encoded(c)|)
  {
    Sixes(c);
    var e := Encoded(c);
    assert forall i :: 0 <= i < |e| ==> (e + rest)[i] == e[i];
  }

  /** And every character a string starts with is the encoding of one. */
  lemma RuneIsEncoded(s: Bytes) returns (c: int)
    requires RuneLength(s).Some?
    ensures Scalar(c) && Encoded(c) == s[..RuneLength(s).value]
  {
    match RuneLength(s).value {
      case 1 => c := s[0] as int;
      case 2 => c := RuneOfTwo(s[0], s[1]);
      case 3 => c := RuneOfThree(s[0], s[1], s[2]);
      case _ => c := RuneOfFour(s[0], s[1], s[2], s[3]);
    }
  }

  lemma Digits(a: int, b: int)
    requires 0 <= b < 64
    ensures (64 * a + b) / 64 == a && (64 * a + b) % 64 == b
  {
  }

  lemma RuneOfTwo(a: byte, b: byte) returns (c: int)
    requires 0xC2 <= a <= 0xDF && Tail(b)
    ensures Scalar(c) && Encoded(c) == [a, b]
  {
    c := 64 * (a as int - 0xC0) + (b as int - 0x80);
    Digits(a as int - 0xC0, b as int - 0x80);
  }

  lemma RuneOfThree(a: byte, b: byte, d: byte) returns (c: int)
    requires 0xE0 <= a <= 0xEF && Tail(b) && Tail(d)
    requires (a == 0xE0 ==> b >= 0xA0) && (a == 0xED ==> b <= 0x9F)
    ensures Scalar(c) && Encoded(c) == [a, b, d]
  {
    var high := 64 * (a as int - 0xE0) + (b as int - 0x80);
    c := 64 * high + (d as int - 0x80);
    Digits(a as int - 0xE0, b as int - 0x80);
    Digits(high, d as int - 0x80);
    assert c / 64 / 64 == c / 4096;
  }

  lemma RuneOfFour(a: byte, b: byte, d: byte, e: byte) returns (c: int)
    requires 0xF0 <= a <= 0xF4 && Tail(b) && Tail(d) && Tail(e)
    requires (a == 0xF0 ==> b >= 0x90) && (a == 0xF4 ==> b <= 0x8F)
    ensures Scalar(c) && Encoded(c) == [a, b, d, e]
  {
    var top := 64 * (a as int - 0xF0) + (b as int - 0x80);
    var high := 64 * top + (d as int - 0x80);
    c := 64 * high + (e as int - 0x80);
    Digits(a as int - 0xF0, b as int - 0x80);
    Digits(top, d as int - 0x80);
    Digits(high, e as int - 0x80);
    assert c / 64 / 64 == c / 4096 && c / 4096 / 64 == c / 262144;
  }

  // ----- cutting

  /** A valid string can be cut at most three bytes before any position. */
  lemma {:induction false} CutNear(s: Bytes, n: nat) returns (k: nat)
    requires ValidUtf8(s) && n <= |s|
    ensures k <= 3 && k <= n && ValidUtf8(s[..n - k])
    decreases |s|
  {
    if n == 0 {
      k := 0;
    } else {
      var m := RuneLength(s).value;
      if n < m {
        k := n;
      } else {
        k := CutNear(s[m..], n - m);
        var cut := s[..n - k];
        assert m <= n - k;
        assert cut[m..] == s[m..][..n - m - k];
        assert RuneLength(cut) == Some(m) by {
          assert forall i :: 0 <= i < m ==> cut[i] == s[i];
        }
      }
    }
  }

  /** The loop drops a byte at a time until what is left is valid. */
  method Clip(s0: Bytes) returns (s: Bytes)
    ensures |s0| <= 1024 ==> s == s0
    ensures s <= s0 && |s| <= 1024
    ensures |s0| > 1024 ==> ValidUtf8(s)
    ensures |s0| > 1024 ==> forall n :: |s| < n <= 1024 ==> !ValidUtf8(s0[..n])
    ensures ValidUtf8(s0) ==> ValidUtf8(s) && (|s0| > 1024 ==> 1021 <= |s|)
  {
    if |s0| <= MAX_ERROR_LEN {
      return s0;
    }
    s := s0[..MAX_ERROR_LEN];
    while !ValidUtf8(s) && |s| > 0
      invariant |s| <= MAX_ERROR_LEN && s == s0[..|s|]
      invariant forall n :: |s| < n <= MAX_ERROR_LEN ==> !ValidUtf8(s0[..n])
    {
      s := s[..|s| - 1];
    }
    if ValidUtf8(s0) {
      ghost var k := CutNear(s0, MAX_ERROR_LEN);
    }
  }
}
