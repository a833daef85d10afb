/** Passes of a regular expression over a text, whatever the expression: what a pass does to
    its own output, and to matches that share a quote. */
module TextScanners {
  import opened Sequences
  import opened Bytes
  import opened FileText

  /** The first k characters are the same. */
  predicate Agree(s: string, t: string, k: nat) {
    k <= |s| && k <= |t| && forall i :: 0 <= i < k ==> s[i] == t[i]
  }

  // ----- a pass

  /** A match looks at nothing past its end. */
  ghost predicate EndsAt(sc: Scanner, s: string, k: nat) {
    sc.Len(s) <= k <= |s| ==> sc.Len(s[..k]) == sc.Len(s)
  }

  /** No match reaches across c. */
  ghost predicate StopsAt(sc: Scanner, a: string, c: char, b: string) {
    sc.Len(a + [c] + b) == sc.Len(a)
  }

  /** A replacement begins like the match, or with the placeholder. */
  ghost predicate KeepsAt(sc: Scanner, s: string) {
    sc.Hit(s).Some? ==> sc.Hit(s).value.kept <= s
  }

  ghost predicate Regular(sc: Scanner) {
    && (forall s, k :: EndsAt(sc, s, k))
    && (forall a, b :: StopsAt(sc, a, '<', b))
    && (forall a, b :: StopsAt(sc, a, '>', b))
    && (forall s :: KeepsAt(sc, s))
  }

  lemma MarkAfterKept(swap: Swap, rest: string)
    ensures var out, k := swap.Text() + rest, |swap.kept|;
      k < |out| && out[..k] == swap.kept && out[k] == '<'
  {
    var text := swap.Text();
    assert text[..|swap.kept|] == swap.kept && text[|swap.kept|] == '<';
  }

  lemma StartsAgree(x: string, s: string, t: string, k: nat)
    requires k <= |s| && k <= |t| && s[..k] == t[..k]
    ensures |x| + k <= |x + s| && |x| + k <= |x + t| && (x + s)[..|x| + k] == (x + t)[..|x| + k]
  {
    assert (x + s)[..|x| + k] == x + s[..k];
    assert (x + t)[..|x| + k] == x + t[..k];
  }

  /** The texts agree on the first k characters; after them the second has a placeholder,
      unless it is the first. */
  predicate AgreeUntil(s: string, out: string, k: nat) {
    && k <= |s| && k <= |out| && s[..k] == out[..k]
    && (out == s || (k < |out| && out[k] == '<'))
  }

  lemma SwapAgrees(s: string, swap: Swap, rest: string)
    requires swap.kept <= s
    ensures AgreeUntil(s, swap.Text() + rest, |swap.kept|)
  {
    MarkAfterKept(swap, rest);
  }

  lemma LaterAgrees(x: string, s: string, out: string, k: nat)
    requires AgreeUntil(s, out, k)
    ensures AgreeUntil(x + s, x + out, |x| + k)
  {
    StartsAgree(x, s, out, k);
  }

  /** What a pass leaves is what it was given, at least up to the first placeholder. */
  lemma {:induction false} AgreesUntil(sc: Scanner, s: string) returns (k: nat)
    requires Regular(sc)
    ensures AgreeUntil(s, sc.Replaced(s), k)
    decreases |s|
  {
    k := 0;
    if s != "" {
      var d := sc.Width(s);
      var rest := sc.Replaced(s[d..]);
      if sc.Hit(s).Some? {
        assert KeepsAt(sc, s);
        k := |sc.Hit(s).value.kept|;
        SwapAgrees(s, sc.Hit(s).value, rest);
      } else {
        k := AgreesUntil(sc, s[d..]);
        LaterAgrees(s[..d], s[d..], rest, k);
        Halves(s, d);
        k := d + k;
      }
    }
  }

  /** A match that ends before the rewritten part begins is still the match there. */
  lemma StartSame(sc: Scanner, pre: string, s: string)
    requires Regular(sc) && sc.Len(pre + s) <= |pre|
    ensures sc.Len(pre + sc.Replaced(s)) == sc.Len(pre + s)
  {
    var out := sc.Replaced(s);
    var k := AgreesUntil(sc, s);
    if out != s {
      var a := pre + s[..k];
      assert a + ['<'] + out[k + 1..] == pre + out;
      assert StopsAt(sc, a, '<', out[k + 1..]);
      assert (pre + s)[..|a|] == a;
      assert EndsAt(sc, pre + s, |a|);
    }
  }

  lemma {:induction false} Walk(sc: Scanner, x: string, y: string)
    requires forall i :: 0 <= i < |x| ==> sc.Len(x[i..] + y) == 0
    ensures sc.Finds(x + y) == sc.Finds(y)
    decreases |x|
  {
    if x == "" {
      assert x + y == y;
    } else {
      assert x[0..] + y == x + y;
      assert (x + y)[1..] == x[1..] + y;
      forall i | 0 <= i < |x[1..]| ensures sc.Len(x[1..][i..] + y) == 0 {
        assert x[1..][i..] == x[i + 1..];
      }
      Walk(sc, x[1..], y);
    }
  }

  lemma {:induction false} FindsSplit(sc: Scanner, a: string, c: char, b: string)
    requires forall x, y :: StopsAt(sc, x, c, y)
    ensures sc.Finds(a + [c] + b) == sc.Finds(a) + sc.Finds(b)
    decreases |a|
  {
    var s := a + [c] + b;
    assert StopsAt(sc, a, c, b);
    if a == "" {
      assert s[1..] == b;
    } else {
      var d := sc.Width(a);
      assert sc.Width(s) == d;
      assert s[d..] == a[d..] + [c] + b;
      assert s[..d] == a[..d];
      FindsSplit(sc, a[d..], c, b);
    }
  }

  /** Over its own output a pass takes the same step where it left the text alone. */
  lemma StepKept(sc: Scanner, s: string)
    requires Regular(sc) && s != "" && sc.Hit(s).None?
    ensures sc.Finds(sc.Replaced(s)) == sc.Finds(sc.Replaced(s[sc.Width(s)..]))
  {
    var d := sc.Width(s);
    var out, rest := sc.Replaced(s), sc.Replaced(s[d..]);
    assert out == s[..d] + rest;
    assert s == s[..d] + s[d..];
    StartSame(sc, s[..d], s[d..]);
    assert out[d..] == rest;
    assert out[..d] == s[..d];
  }

  lemma {:induction false} NothingFound(sc: Scanner, s: string)
    requires sc.Finds(s) == []
    ensures sc.Replaced(s) == s
    decreases |s|
  {
    if s != "" {
      NothingFound(sc, s[sc.Width(s)..]);
      Halves(s, sc.Width(s));
    }
  }

  lemma {:induction false} SomethingFound(sc: Scanner, s: string)
    requires sc.Finds(s) != [] || '<' in s
    requires Regular(sc)
    ensures '<' in sc.Replaced(s)
    decreases |s|
  {
    if s != "" {
      var d := sc.Width(s);
      var rest := sc.Replaced(s[d..]);
      if sc.Hit(s).Some? {
        MarkAfterKept(sc.Hit(s).value, rest);
      } else {
        Halves(s, d);
        if '<' !in s[..d] { SomethingFound(sc, s[d..]); }
        assert sc.Replaced(s) == s[..d] + rest;
      }
    }
  }

  // ----- a pass over its own output

  /** A placeholder in front of a text changes nothing about what is found in it. */
  ghost predicate QuietAt(sc: Scanner, lib: Lib, d: Bytes, y: string) {
    sc.Finds(Placeholder(lib.hash(d)) + y) == sc.Finds(y)
  }

  /** Whether a pass, with s left to scan, leaves a field a second pass would take.
      given: the character before s is the closing quote of a field that was replaced. Such
      a quote can open the next field, which the pass, past that quote, does not see. */
  predicate Hides(sc: Scanner, s: string, given: bool)
    decreases |s|, given
  {
    var open := "\"" + s;
    if given && sc.Len(open) > 1 then
      var end := s[sc.Len(open) - 2..];
      sc.Hit(open).Some? || (end != "" && Hides(sc, end[sc.Width(end)..], sc.Len(end) > 0))
    else if s == "" then false
    else Hides(sc, s[sc.Width(s)..], sc.Hit(s).Some?)
  }

  // What is needed of the field scanner: a match is settled by its own characters, ends
  // with a quote, and no other match starts inside it before that quote.

  ghost predicate SettledAt(sc: Scanner, s: string, t: string) {
    sc.Len(s) > 0 && Agree(s, t, sc.Len(s)) ==> sc.Len(t) == sc.Len(s)
  }

  ghost predicate QuotedAt(sc: Scanner, s: string) {
    sc.Len(s) > 0 ==> sc.Len(s) > 2 && s[sc.Len(s) - 1] == '"'
  }

  ghost predicate AloneAt(sc: Scanner, s: string, i: nat, y: string) {
    1 <= i < sc.Len(s) - 1 ==> sc.Len(s[i..sc.Len(s)] + y) == 0
  }

  ghost predicate SwapAt(sc: Scanner, lib: Lib, s: string) {
    sc.Hit(s).Some? ==>
      var swap := sc.Hit(s).value;
      && 0 < |swap.kept| < sc.Len(s) && swap.kept == s[..|swap.kept|] && sc.Len(swap.kept) == 0
      && swap.tail == ['"'] && swap.file.sha == lib.hash(swap.file.data)
  }

  ghost predicate Quoted(sc: Scanner, lib: Lib) {
    && Regular(sc)
    && (forall d, y :: QuietAt(sc, lib, d, y))
    && (forall s, t :: SettledAt(sc, s, t))
    && (forall s :: QuotedAt(sc, s))
    && (forall s, i, y :: AloneAt(sc, s, i, y))
    && (forall s :: SwapAt(sc, lib, s))
  }

  /** Nor does a match start in what is kept of one. */
  lemma InKept(sc: Scanner, lib: Lib, s: string, i: nat, y: string)
    requires Quoted(sc, lib) && sc.Hit(s).Some? && i < |sc.Hit(s).value.kept|
    ensures sc.Len(sc.Hit(s).value.kept[i..] + ['<'] + y) == 0
  {
    assert SwapAt(sc, lib, s);
    var kept := sc.Hit(s).value.kept;
    assert StopsAt(sc, kept[i..], '<', y);
    if i == 0 {
      assert kept[i..] == kept;
    } else {
      var t := s[i..sc.Len(s)];
      assert AloneAt(sc, s, i, "") && t + "" == t;
      assert t[..|kept| - i] == kept[i..] && EndsAt(sc, t, |kept| - i);
    }
  }

  /** Past its first character, a match counts for nothing but its closing quote. */
  lemma PastField(sc: Scanner, lib: Lib, s: string, y: string)
    requires Quoted(sc, lib) && sc.Len(s) > 0
    ensures sc.Finds(s[1..sc.Len(s)] + y) == sc.Finds("\"" + y)
  {
    assert QuotedAt(sc, s);
    var n := sc.Len(s);
    var x, z := s[1..n - 1], "\"" + y;
    forall i | 0 <= i < |x| ensures sc.Len(x[i..] + z) == 0 {
      assert AloneAt(sc, s, i + 1, y);
      assert s[i + 1..n] == x[i..] + ['"'];
      Assoc(x[i..], ['"'], y);
    }
    Walk(sc, x, z);
    assert s[1..n] == x + ['"'];
    Assoc(x, ['"'], y);
  }

  lemma PastKept(sc: Scanner, lib: Lib, s: string, from: nat, ph: string, z: string)
    requires Quoted(sc, lib) && sc.Hit(s).Some? && from <= |sc.Hit(s).value.kept| && ph != "" && ph[0] == '<'
    ensures sc.Finds(sc.Hit(s).value.kept[from..] + (ph + z)) == sc.Finds(ph + z)
  {
    var kept := sc.Hit(s).value.kept;
    var x := kept[from..];
    assert ph == ['<'] + ph[1..];
    Assoc(['<'], ph[1..], z);
    forall i | 0 <= i < |x| ensures sc.Len(x[i..] + (ph + z)) == 0 {
      InKept(sc, lib, s, from + i, ph[1..] + z);
      assert x[i..] == kept[from + i..];
      Assoc(x[i..], ['<'], ph[1..] + z);
    }
    Walk(sc, x, ph + z);
  }

  lemma SwapFrom(kept: string, ph: string, from: nat, y: string)
    requires from <= |kept|
    ensures (kept + ph + ['"'])[from..] + y == kept[from..] + (ph + (['"'] + y))
  {
    assert (kept + ph + ['"'])[from..] == kept[from..] + ph + ['"'];
    Assoc(kept[from..] + ph, ['"'], y);
    Assoc(kept[from..], ph, ['"'] + y);
  }

  lemma PastSwap(sc: Scanner, lib: Lib, s: string, from: nat, y: string)
    requires Quoted(sc, lib) && sc.Hit(s).Some? && from <= 1
    ensures from <= |sc.Hit(s).value.Text()|
    ensures sc.Finds(sc.Hit(s).value.Text()[from..] + y) == sc.Finds("\"" + y)
  {
    assert SwapAt(sc, lib, s);
    var swap := sc.Hit(s).value;
    var ph := Placeholder(swap.file.sha);
    calc {
      sc.Finds(swap.Text()[from..] + y);
      { SwapFrom(swap.kept, ph, from, y); }
      sc.Finds(swap.kept[from..] + (ph + (['"'] + y)));
      { PastKept(sc, lib, s, from, ph, ['"'] + y); }
      sc.Finds(ph + (['"'] + y));
      { assert QuietAt(sc, lib, swap.file.data, ['"'] + y); }
      sc.Finds(['"'] + y);
    }
  }

  lemma SkipOne(sc: Scanner, s: string, e: nat)
    requires 0 < e <= |s| && sc.Len(s) == 0
    requires sc.Replaced(s[1..]) == s[1..][..e - 1] + sc.Replaced(s[1..][e - 1..])
    ensures sc.Replaced(s) == s[..e] + sc.Replaced(s[e..])
  {
    assert s[..e] == s[..1] + s[1..][..e - 1];
    assert s[1..][e - 1..] == s[e..];
    Assoc(s[..1], s[1..][..e - 1], sc.Replaced(s[e..]));
  }

  lemma {:induction false} SkipPlain(sc: Scanner, s: string, e: nat)
    requires e <= |s| && forall i :: 0 <= i < e ==> sc.Len(s[i..]) == 0
    ensures sc.Replaced(s) == s[..e] + sc.Replaced(s[e..])
    decreases e
  {
    assert s[0..] == s;
    if e > 0 {
      forall i | 0 <= i < e - 1 ensures sc.Len(s[1..][i..]) == 0 { assert s[1..][i..] == s[i + 1..]; }
      SkipPlain(sc, s[1..], e - 1);
      SkipOne(sc, s, e);
    }
  }

  lemma Rejoin(s: string, i: nat, n: nat)
    requires i < n <= |s| + 1
    ensures var open := "\"" + s; i + 1 <= n ==> open[i + 1..n] + open[n..] == s[i..]
  {
    var open := "\"" + s;
    assert open[i + 1..] == s[i..];
    assert open[i + 1..n] + open[n..] == open[i + 1..];
  }

  lemma SameUntil(s: string, tail: string, e: nat)
    requires e < |s| && tail != "" && tail[0] == s[e]
    ensures var open, out := "\"" + s, "\"" + (s[..e] + tail);
      Agree(open, out, e + 2) && out[..e + 2] == open[..e + 2] && out[e + 2..] == tail[1..]
  {
    var x := "\"" + s[..e + 1];
    assert s == s[..e + 1] + s[e + 1..];
    assert s[..e] + tail == s[..e + 1] + tail[1..];
    Assoc("\"", s[..e + 1], s[e + 1..]);
    Assoc("\"", s[..e + 1], tail[1..]);
    assert (x + s[e + 1..])[..e + 2] == x == (x + tail[1..])[..e + 2];
    forall i | 0 <= i < e + 2 ensures (x + s[e + 1..])[i] == (x + tail[1..])[i] { assert x[i] == (x + tail[1..])[i]; }
  }

  lemma InOpenField(sc: Scanner, lib: Lib, s: string, e: nat, i: nat)
    requires Quoted(sc, lib) && sc.Len("\"" + s) == e + 2 && i < e
    ensures sc.Len(s[i..]) == 0
  {
    assert AloneAt(sc, "\"" + s, i + 1, ("\"" + s)[e + 2..]);
    Rejoin(s, i, e + 2);
  }

  lemma OpenEnds(sc: Scanner, lib: Lib, s: string, e: nat)
    requires Quoted(sc, lib) && sc.Len("\"" + s) == e + 2
    ensures 0 < e < |s| && s[e] == '"'
  {
    assert QuotedAt(sc, "\"" + s);
  }

  /** A match opened by the quote before s: the pass over s goes through it untouched as
      far as its closing quote. */
  lemma OpenField(sc: Scanner, lib: Lib, s: string, e: nat)
    requires Quoted(sc, lib) && sc.Len("\"" + s) == e + 2 && e < |s|
    ensures sc.Replaced(s) == s[..e] + sc.Replaced(s[e..])
  {
    forall i | 0 <= i < e ensures sc.Len(s[i..]) == 0 { InOpenField(sc, lib, s, e, i); }
    SkipPlain(sc, s, e);
  }

  /** A pass keeps the first character. */
  lemma FirstKept(sc: Scanner, lib: Lib, s: string)
    requires Quoted(sc, lib) && s != ""
    ensures sc.Replaced(s) != "" && sc.Replaced(s)[0] == s[0]
  {
    assert SwapAt(sc, lib, s);
  }

  lemma OpenFieldStays(sc: Scanner, lib: Lib, s: string, e: nat)
    requires Quoted(sc, lib) && sc.Len("\"" + s) == e + 2 && e < |s| && s[e] == '"'
    ensures sc.Replaced(s[e..]) != ""
    ensures var open, out := "\"" + s, "\"" + sc.Replaced(s);
      sc.Len(out) == e + 2 && out[..e + 2] == open[..e + 2] && out[e + 2..] == sc.Replaced(s[e..])[1..]
  {
    OpenField(sc, lib, s, e);
    FirstKept(sc, lib, s[e..]);
    Settles(sc, lib, s, sc.Replaced(s[e..]), e);
  }

  lemma Settles(sc: Scanner, lib: Lib, s: string, tail: string, e: nat)
    requires Quoted(sc, lib) && sc.Len("\"" + s) == e + 2 && e < |s| && tail != "" && tail[0] == s[e]
    ensures var open, out := "\"" + s, "\"" + (s[..e] + tail);
      sc.Len(out) == e + 2 && out[..e + 2] == open[..e + 2] && out[e + 2..] == tail[1..]
  {
    SameUntil(s, tail, e);
    assert SettledAt(sc, "\"" + s, "\"" + (s[..e] + tail));
  }

  function Given(given: bool, s: string): string {
    if given then "\"" + s else s
  }

  lemma {:induction false} SecondPass(sc: Scanner, lib: Lib, s: string, given: bool)
    requires Quoted(sc, lib)
    ensures sc.Finds(Given(given, sc.Replaced(s))) != [] <==> Hides(sc, s, given)
    decreases |s|, given
  {
    var open := "\"" + s;
    if given && sc.Len(open) > 0 {
      assert QuotedAt(sc, open);
      var end := s[sc.Len(open) - 2..];
      AfterOpen(sc, lib, s, sc.Len(open) - 2);
      SecondPass(sc, lib, end[sc.Width(end)..], sc.Len(end) > 0);
    } else if given {
      StartSame(sc, "\"", s);
      DropOne("\"", sc.Replaced(s));
      SecondPass(sc, lib, s, false);
    } else if s != "" {
      SecondPass(sc, lib, s[sc.Width(s)..], sc.Hit(s).Some?);
      AfterStep(sc, lib, s);
    }
  }

  lemma AfterStep(sc: Scanner, lib: Lib, s: string)
    requires Quoted(sc, lib) && s != ""
    ensures sc.Finds(sc.Replaced(s)) == sc.Finds(Given(sc.Hit(s).Some?, sc.Replaced(s[sc.Width(s)..])))
  {
    if sc.Hit(s).Some? {
      PastSwap(sc, lib, s, 0, sc.Replaced(s[sc.Width(s)..]));
      assert sc.Hit(s).value.Text()[0..] == sc.Hit(s).value.Text();
    } else {
      StepKept(sc, s);
    }
  }

  lemma AfterOpen(sc: Scanner, lib: Lib, s: string, e: nat)
    requires Quoted(sc, lib) && sc.Len("\"" + s) == e + 2
    ensures e < |s|
    ensures var open, out, end := "\"" + s, "\"" + sc.Replaced(s), s[e..];
      sc.Finds(out) != [] <==>
        sc.Hit(open).Some? || sc.Finds(Given(sc.Len(end) > 0, sc.Replaced(end[sc.Width(end)..]))) != []
  {
    OpenEnds(sc, lib, s, e);
    OpenFieldStays(sc, lib, s, e);
    AfterQuote(sc, lib, s[e..]);
  }

  lemma DropOne(x: string, y: string)
    requires x != ""
    ensures (x + y)[1..] == x[1..] + y
  {
  }

  lemma AfterQuote(sc: Scanner, lib: Lib, end: string)
    requires Quoted(sc, lib) && end != "" && sc.Replaced(end) != ""
    ensures sc.Finds(sc.Replaced(end)[1..]) == sc.Finds(Given(sc.Len(end) > 0, sc.Replaced(end[sc.Width(end)..])))
  {
    var rest := sc.Replaced(end[sc.Width(end)..]);
    if sc.Len(end) == 0 {
      assert sc.Replaced(end)[1..] == rest;
    } else if sc.Hit(end).Some? {
      PastSwap(sc, lib, end, 1, rest);
      DropOne(sc.Hit(end).value.Text(), rest);
    } else {
      PastField(sc, lib, end, rest);
      DropOne(end[..sc.Len(end)], rest);
      assert end[..sc.Len(end)][1..] == end[1..sc.Len(end)];
    }
  }
}
