/** The assumptions the models make of encoding/json, of the regular expressions and codecs
    behind files.go and of json.Marshal can be met: each has an instance. */
module Assumptions {
  import opened Sequences
  import opened Options
  import opened Bytes
  import opened Json
  import opened JsonCodec
  import opened FileText
  import opened StoredBlob

  // ----- an encoding of JSON values in front of other bytes

  const END: byte := 6
  const MORE: byte := 7

  function Digits(c: char): Bytes {
    var n := c as int;
    [(20 + n / 40000 % 200) as byte, (20 + n / 200 % 200) as byte, (20 + n % 200) as byte]
  }

  lemma CodeOf(n: nat)
    requires n < 0x11_0000
    ensures n == n / 40000 % 200 * 40000 + n / 200 % 200 * 200 + n % 200
  {
    assert n / 40000 % 200 == n / 40000 && n / 40000 == n / 200 / 200;
  }

  lemma CodesDiffer(a: char, b: char)
    requires Digits(a) == Digits(b)
    ensures a == b
  {
    CodeOf(a as nat);
    CodeOf(b as nat);
    assert Digits(a)[0] == Digits(b)[0] && Digits(a)[1] == Digits(b)[1] && Digits(a)[2] == Digits(b)[2];
  }

  lemma HeadsOfThree(d: Bytes, e: Bytes, x: Bytes, y: Bytes)
    requires |d| == |e| == 3 && d + x == e + y
    ensures d == e && x == y
  {
    assert (d + x)[..3] == d && (e + y)[..3] == e && (d + x)[3..] == x && (e + y)[3..] == y;
  }

  lemma DigitsDiffer(a: char, b: char, x: Bytes, y: Bytes)
    requires Digits(a) + x == Digits(b) + y
    ensures a == b && x == y
  {
    HeadsOfThree(Digits(a), Digits(b), x, y);
    CodesDiffer(a, b);
  }

  function Text(s: string, rest: Bytes): Bytes {
    if s == "" then [END] + rest else [MORE] + (Digits(s[0]) + Text(s[1..], rest))
  }

  ghost function Value(v: Json, rest: Bytes): Bytes
    decreases v, 1, 0
  {
    match v
    case Null => [1] + rest
    case Scalar(text) => [2] + Text(text, rest)
    case Str(val) => [3] + Text(val, rest)
    case Arr(items) => [4] + Items(v, 0, rest)
    case Obj(fields) => [5] + Entries(v, fields, rest)
  }

  ghost function Items(v: Json, i: nat, rest: Bytes): Bytes
    requires v.Arr? && i <= |v.items|
    decreases v, 0, |v.items| - i
  {
    if i == |v.items| then [END] + rest else [MORE] + Value(v.items[i], Items(v, i + 1, rest))
  }

  ghost predicate PartOf(m: Fields, v: Json) {
    v.Obj? && forall k :: k in m ==> k in v.fields && m[k] == v.fields[k]
  }

  ghost function Entries(v: Json, m: Fields, rest: Bytes): Bytes
    requires PartOf(m, v)
    decreases v, 0, |m|
  {
    if m == map[] then [END] + rest
    else
      var k :| k in m;
      [MORE] + Text(k, Value(v.fields[k], Entries(v, m - {k}, rest)))
  }

  // ----- it loses nothing

  lemma Heads(b: byte, x: Bytes, c: byte, y: Bytes)
    requires [b] + x == [c] + y
    ensures b == c && x == y
  {
    assert ([b] + x)[0] == b && ([b] + x)[1..] == x;
    assert ([c] + y)[0] == c && ([c] + y)[1..] == y;
  }

  lemma {:induction false} TextsDiffer(s: string, t: string, x: Bytes, y: Bytes)
    requires Text(s, x) == Text(t, y)
    ensures s == t && x == y
  {
    assert Text(s, x)[0] == Text(t, y)[0];
    if s == "" {
      Heads(END, x, END, y);
    } else {
      Heads(MORE, Digits(s[0]) + Text(s[1..], x), MORE, Digits(t[0]) + Text(t[1..], y));
      DigitsDiffer(s[0], t[0], Text(s[1..], x), Text(t[1..], y));
      TextsDiffer(s[1..], t[1..], x, y);
      assert s == [s[0]] + s[1..] && t == [t[0]] + t[1..];
    }
  }

  lemma {:induction false} ValuesDiffer(v: Json, w: Json, x: Bytes, y: Bytes)
    requires Value(v, x) == Value(w, y)
    ensures v == w && x == y
    decreases v, 1, 0
  {
    assert Value(v, x)[0] == Value(w, y)[0];
    match v
    case Null => Heads(1, x, 1, y);
    case Scalar(text) =>
      Heads(2, Text(text, x), 2, Text(w.text, y));
      TextsDiffer(text, w.text, x, y);
    case Str(val) =>
      Heads(3, Text(val, x), 3, Text(w.val, y));
      TextsDiffer(val, w.val, x, y);
    case Arr(items) =>
      Heads(4, Items(v, 0, x), 4, Items(w, 0, y));
      ItemsDiffer(v, w, 0, x, y);
      assert items[0..] == items && w.items[0..] == w.items;
    case Obj(fields) =>
      Heads(5, Entries(v, fields, x), 5, Entries(w, w.fields, y));
      EntriesDiffer(v, w, fields, w.fields, x, y);
  }

  lemma {:induction false} ItemsDiffer(v: Json, w: Json, i: nat, x: Bytes, y: Bytes)
    requires v.Arr? && w.Arr? && i <= |v.items| && i <= |w.items|
    requires Items(v, i, x) == Items(w, i, y)
    ensures v.items[i..] == w.items[i..] && x == y
    decreases v, 0, |v.items| - i
  {
    assert Items(v, i, x)[0] == Items(w, i, y)[0];
    if i == |v.items| {
      Heads(END, x, END, y);
    } else {
      Heads(MORE, Value(v.items[i], Items(v, i + 1, x)), MORE, Value(w.items[i], Items(w, i + 1, y)));
      ValuesDiffer(v.items[i], w.items[i], Items(v, i + 1, x), Items(w, i + 1, y));
      ItemsDiffer(v, w, i + 1, x, y);
      assert v.items[i..] == [v.items[i]] + v.items[i + 1..] && w.items[i..] == [w.items[i]] + w.items[i + 1..];
    }
  }

  lemma EntriesUnfold(v: Json, m: Fields, rest: Bytes) returns (k: string)
    requires PartOf(m, v) && m != map[]
    ensures k in m && Entries(v, m, rest) == [MORE] + Text(k, Value(m[k], Entries(v, m - {k}, rest)))
  {
    k :| k in m && Entries(v, m, rest) == [MORE] + Text(k, Value(m[k], Entries(v, m - {k}, rest)));
  }

  lemma EntriesBack(m: Fields, n: Fields, k: string)
    requires k in m && k in n && m[k] == n[k] && m - {k} == n - {k}
    ensures m == n
  {
    assert m == (m - {k})[k := m[k]] && n == (n - {k})[k := n[k]];
  }

  lemma {:induction false} EntriesDiffer(v: Json, w: Json, m: Fields, n: Fields, x: Bytes, y: Bytes)
    requires PartOf(m, v) && PartOf(n, w)
    requires Entries(v, m, x) == Entries(w, n, y)
    ensures m == n && x == y
    decreases v, 0, |m|
  {
    assert Entries(v, m, x)[0] == Entries(w, n, y)[0];
    if m == map[] {
      Heads(END, x, END, y);
    } else {
      var k := EntriesUnfold(v, m, x);
      var l := EntriesUnfold(w, n, y);
      var p, q := Entries(v, m - {k}, x), Entries(w, n - {l}, y);
      Heads(MORE, Text(k, Value(m[k], p)), MORE, Text(l, Value(n[l], q)));
      TextsDiffer(k, l, Value(m[k], p), Value(n[l], q));
      ValuesDiffer(m[k], n[l], p, q);
      EntriesDiffer(v, w, m - {k}, n - {k}, x, y);
      EntriesBack(m, n, k);
    }
  }

  // ----- and is one line

  predicate Clean(s: Bytes) {
    LF !in s && CR !in s
  }

  lemma {:induction false} TextClean(s: string, rest: Bytes)
    requires Clean(rest)
    ensures Clean(Text(s, rest))
  {
    if s != "" { TextClean(s[1..], rest); }
  }

  lemma {:induction false} ValueClean(v: Json, rest: Bytes)
    requires Clean(rest)
    ensures Clean(Value(v, rest))
    decreases v, 1, 0
  {
    match v
    case Null =>
    case Scalar(text) => TextClean(text, rest);
    case Str(val) => TextClean(val, rest);
    case Arr(items) => ItemsClean(v, 0, rest);
    case Obj(fields) => EntriesClean(v, fields, rest);
  }

  lemma {:induction false} ItemsClean(v: Json, i: nat, rest: Bytes)
    requires v.Arr? && i <= |v.items| && Clean(rest)
    ensures Clean(Items(v, i, rest))
    decreases v, 0, |v.items| - i
  {
    if i < |v.items| {
      ItemsClean(v, i + 1, rest);
      ValueClean(v.items[i], Items(v, i + 1, rest));
    }
  }

  lemma {:induction false} EntriesClean(v: Json, m: Fields, rest: Bytes)
    requires PartOf(m, v) && Clean(rest)
    ensures Clean(Entries(v, m, rest))
    decreases v, 0, |m|
  {
    if m != map[] {
      var k := EntriesUnfold(v, m, rest);
      EntriesClean(v, m - {k}, rest);
      ValueClean(m[k], Entries(v, m - {k}, rest));
      TextClean(k, Value(m[k], Entries(v, m - {k}, rest)));
    }
  }

  // ----- the codec

  ghost function Encoding(m: Fields): Bytes {
    Value(Obj(m), [])
  }

  function Skipped(s: Bytes): Bytes {
    if s != [] && JsonSpace([s[0]]) then Skipped(s[1..]) else s
  }

  ghost predicate Spells(s: Bytes, m: Fields) {
    s == Encoding(m)
  }

  ghost function Parse(s: Bytes): (r: Option<Fields>)
    ensures r.Some? ==> s == Encoding(r.value)
    ensures r.None? ==> forall m :: !Spells(s, m)
  {
    if exists m :: Spells(s, m) then
      var m :| Spells(s, m);
      Some(m)
    else None
  }

  ghost function AnyCodec(): Codec {
    Codec(s => Parse(Skipped(s)), m => Encoding(m))
  }

  lemma EncodingIs(m: Fields)
    ensures Encoding(m) != [] && Encoding(m)[0] == 5 && Clean(Encoding(m))
    ensures Parse(Encoding(m)) == Some(m)
  {
    ValueClean(Obj(m), []);
    assert Spells(Encoding(m), m);
    ValuesDiffer(Obj(m), Obj(Parse(Encoding(m)).value), [], []);
  }

  lemma ParsesNothing(s: Bytes)
    requires s == [] || s[0] != 5 || LF in s
    ensures Parse(s).None?
  {
    forall m ensures !Spells(s, m) { EncodingIs(m); }
  }

  lemma {:induction false} SpaceSkipped(x: Bytes, y: Bytes)
    requires JsonSpace(x)
    ensures Skipped(x + y) == Skipped(y)
    decreases |x|
  {
    if x == [] {
      assert x + y == y;
    } else {
      assert (x + y)[0] == x[0] && (x + y)[1..] == x[1..] + y;
      SpaceSkipped(x[1..], y);
    }
  }

  lemma {:induction false} SkippedStays(x: Bytes, y: Bytes)
    requires !JsonSpace(x)
    ensures Skipped(x + y) == Skipped(x) + y
    decreases |x|
  {
    assert (x + y)[0] == x[0] && (x + y)[1..] == x[1..] + y;
    if JsonSpace([x[0]]) {
      assert [x[0]][0] == x[0] && x == [x[0]] + x[1..];
      SkippedStays(x[1..], y);
    }
  }

  lemma NoValueAfterSpace(x: Bytes, y: Bytes)
    requires JsonSpace(x)
    ensures Parse(Skipped(x)).None? && Parse(Skipped(x + [LETTER_D] + y)).None?
  {
    SpaceSkipped(x, []);
    assert x + [] == x;
    ParsesNothing([]);
    var d := [LETTER_D] + y;
    SpaceSkipped(x, d);
    Assoc(x, [LETTER_D], y);
    assert d[0] == LETTER_D && [d[0]][0] == LETTER_D;
    assert Skipped(d) == d;
    ParsesNothing(d);
  }

  lemma AnySpace(x: Bytes, y: Bytes)
    ensures AnyCodec().SpaceLaw(x, y)
  {
    if JsonSpace(x) {
      SpaceSkipped(x + [LF], y);
      NoValueAfterSpace(x, y);
    }
  }

  lemma AnyLastLine(x: Bytes, m: Fields)
    ensures AnyCodec().LastLineLaw(x, m)
  {
    if !JsonSpace(x) {
      var t := [LF] + Encoding(m);
      assert x + [LF] + Encoding(m) == x + t;
      SkippedStays(x, t);
      var s := Skipped(x) + t;
      assert s[|Skipped(x)|] == LF;
      ParsesNothing(s);
    }
  }

  /** There is a codec as assumed. */
  lemma CodecExists()
    ensures exists cd: Codec :: cd.Lawful() && cd.Textual()
  {
    var cd := AnyCodec();
    forall m ensures cd.decode(cd.encode(m)) == Some(m) && OneLine(cd.encode(m)) {
      EncodingIs(m);
      assert [Encoding(m)[0]][0] == 5;
      assert Skipped(Encoding(m)) == Encoding(m);
    }
    forall x, y ensures cd.SpaceLaw(x, y) { AnySpace(x, y); }
    forall x, m ensures cd.LastLineLaw(x, m) { AnyLastLine(x, m); }
    assert cd.Lawful() && cd.Textual();
  }

  // ----- the libraries of files.go

  function HexChar(n: nat): (c: char)
    requires n < 16
    ensures HexDigit(c)
  {
    if n < 10 then '0' + n as char else 'a' + (n - 10) as char
  }

  lemma HexCharsDiffer(a: byte, b: byte)
    requires HexChar(a as nat / 16) == HexChar(b as nat / 16) && HexChar(a as nat % 16) == HexChar(b as nat % 16)
    ensures a == b
  {
    assert a as nat / 16 == b as nat / 16 && a as nat % 16 == b as nat % 16;
  }

  function HexOf(d: Bytes): (s: string)
    ensures forall i :: 0 <= i < |s| ==> HexDigit(s[i])
  {
    if d == [] then "" else [HexChar(d[0] as nat / 16), HexChar(d[0] as nat % 16)] + HexOf(d[1..])
  }

  lemma {:induction false} HexesDiffer(d: Bytes, e: Bytes)
    requires HexOf(d) == HexOf(e)
    ensures d == e
  {
    if d != [] && e != [] {
      HexUnfold(d);
      HexUnfold(e);
      HexCharsDiffer(d[0], e[0]);
      HexesDiffer(d[1..], e[1..]);
      assert d == [d[0]] + d[1..] && e == [e[0]] + e[1..];
    }
  }

  lemma HexUnfold(d: Bytes)
    requires d != []
    ensures var s := HexOf(d);
      |s| >= 2 && s[0] == HexChar(d[0] as nat / 16) && s[1] == HexChar(d[0] as nat % 16) && s[2..] == HexOf(d[1..])
  {
  }

  const PREFIX := "data:,"

  /** Data URLs that are the bare prefix, and payloads of any base64 characters. */
  function AnyLib(): Lib {
    Lib(s => if PREFIX <= s then |PREFIX| else 0,
        s => Some(("", "")),
        s => if forall i :: 0 <= i < |s| ==> PayloadChar(s[i]) then Some([]) else None,
        d => HexOf(d), d => "", s => s, s => s)
  }

  lemma AnyUrl(s: string, k: nat)
    ensures AnyLib().UrlLaw(s, k)
  {
    if PREFIX <= s {
      assert "data:" <= s by { assert s[..5] == PREFIX[..5] == "data:"; }
      if k < |PREFIX| { assert s[k] == PREFIX[k]; }
      if |PREFIX| <= k <= |s| { assert s[..k][..|PREFIX|] == s[..|PREFIX|]; }
    }
  }

  /** There are libraries as assumed. */
  lemma LibExists()
    ensures exists lib: Lib :: lib.Lawful()
  {
    var lib := AnyLib();
    forall s, k: nat ensures lib.UrlLaw(s, k) { AnyUrl(s, k); }
    forall d, e ensures lib.HashLaw(d, e) {
      if lib.hash(d) == lib.hash(e) { HexesDiffer(d, e); }
    }
    forall s ensures lib.MarkLaw(s) {}
    assert lib.Lawful();
  }

  // ----- quoting

  /** There is a way of quoting as assumed. */
  lemma QuoterExists()
    ensures exists q: Quoter :: q.Lawful()
  {
    var q := Quoter(s => [34] + s + [34]);
    forall s ensures q.LongerAt(s) {}
    assert q.Lawful();
  }
}
