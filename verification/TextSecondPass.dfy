/** What a second rewriteText finds in a rewritten text, read off the text as it came. */
module TextSecondPass {
  import opened Options
  import opened Sequences
  import opened Bytes
  import opened FileText
  import opened TextScanners
  import opened FileTextTheorems

  // ----- texts cut at their quotes

  function CutQuote(s: string): (r: Option<(string, string)>)
    ensures r.None? ==> '"' !in s
    ensures r.Some? ==> '"' !in r.value.0 && s == r.value.0 + ['"'] + r.value.1
  {
    if s == "" then None
    else if s[0] == '"' then Some(("", s[1..]))
    else
      match CutQuote(s[1..])
      case None => None
      case Some(parts) =>
        Assoc([s[0]], parts.0, ['"']);
        Assoc([s[0]], parts.0 + ['"'], parts.1);
        Some(([s[0]] + parts.0, parts.1))
  }

  lemma {:induction false} CutQuoteIs(x: string, r: string)
    requires '"' !in x
    ensures CutQuote(x + ['"'] + r) == Some((x, r))
    decreases |x|
  {
    var s := x + ['"'] + r;
    if x == "" {
      assert s[1..] == r;
    } else {
      assert s[0] == x[0] && s[1..] == x[1..] + ['"'] + r;
      CutQuoteIs(x[1..], r);
      assert [x[0]] + x[1..] == x;
    }
  }

  // ----- a field as the stretches between its quotes

  const NAME := "b64_json"

  predicate ColonAt(x: string, c: int) {
    0 <= c < |x| && x[c] == ':' && forall k :: 0 <= k < |x| && k != c ==> Space(x[k])
  }

  predicate IsColon(x: string) {
    exists c :: 0 <= c < |x| && ColonAt(x, c)
  }

  /** What follows a quote that opens a field: the text before its payload's quote, its
      payload, and the rest behind its closing quote. */
  function FieldOf(b: string): Option<(string, string, string)> {
    match CutQuote(b)
    case None => None
    case Some(one) =>
      if one.0 != NAME then None else
      match CutQuote(one.1)
      case None => None
      case Some(two) =>
        if !IsColon(two.0) then None else
        match CutQuote(two.1)
        case None => None
        case Some(three) => if IsPayload(three.0) then Some((two.0, three.0, three.1)) else None
  }

  function FieldFrom(colon: string, payload: string): string {
    FIELD + colon + ['"'] + payload + ['"']
  }

  lemma FieldFromSpan(colon: string, payload: string, rest: string)
    requires IsColon(colon) && IsPayload(payload)
    ensures FieldSpan(FieldFrom(colon, payload) + rest) == Some((11 + |colon|, 11 + |colon| + |payload|))
    ensures FieldLen(FieldFrom(colon, payload) + rest) == |FieldFrom(colon, payload)|
  {
    var s := FieldFrom(colon, payload) + rest;
    var c :| 0 <= c < |colon| && ColonAt(colon, c);
    assert FIELD <= s;
    assert |FIELD| == 10;
    assert forall k :: 10 <= k < 10 + |colon| ==> s[k] == colon[k - 10];
    assert forall k :: 11 + |colon| <= k < 11 + |colon| + |payload| ==> s[k] == payload[k - 11 - |colon|];
    FieldMatchSpan(s, 10 + c, 11 + |colon|, 11 + |colon| + |payload|);
  }

  lemma FieldFromParts(colon: string, payload: string, rest: string)
    ensures FieldFrom(colon, payload) + rest == ['"'] + (NAME + ['"'] + (colon + ['"'] + (payload + ['"'] + rest)))
  {
    assert FIELD == ['"'] + NAME + ['"'];
    var tail := payload + ['"'] + rest;
    Assoc(FIELD + colon + ['"'] + payload, ['"'], rest);
    Assoc(FIELD + colon + ['"'], payload, ['"'] + rest);
    Assoc(payload, ['"'], rest);
    Assoc(FIELD + colon, ['"'], tail);
    Assoc(FIELD, colon, ['"'] + tail);
    Assoc(colon, ['"'], tail);
    Assoc(['"'], NAME, ['"']);
    Assoc(['"'], NAME + ['"'], colon + ['"'] + tail);
  }

  lemma ColonQuoteFree(x: string)
    requires IsColon(x) || IsPayload(x) || x == NAME
    ensures '"' !in x && '<' !in x
  {
    if IsColon(x) {
      var c :| ColonAt(x, c);
    }
  }

  lemma FieldOfFrom(colon: string, payload: string, rest: string)
    requires IsColon(colon) && IsPayload(payload)
    ensures FieldOf(NAME + ['"'] + (colon + ['"'] + (payload + ['"'] + rest))) == Some((colon, payload, rest))
  {
    ColonQuoteFree(NAME);
    ColonQuoteFree(colon);
    ColonQuoteFree(payload);
    CutQuoteIs(payload, rest);
    CutQuoteIs(colon, payload + ['"'] + rest);
    CutQuoteIs(NAME, colon + ['"'] + (payload + ['"'] + rest));
  }

  /** The field a quote opens is the one its stretches spell. */
  lemma OpenedIs(b: string)
    ensures FieldSpan(['"'] + b).Some? <==> FieldOf(b).Some?
    ensures FieldOf(b).Some? ==>
      var f := FieldOf(b).value;
      ['"'] + b == FieldFrom(f.0, f.1) + f.2 && FieldLen(['"'] + b) == |FieldFrom(f.0, f.1)|
  {
    var s := ['"'] + b;
    if FieldOf(b).Some? {
      var f := FieldOf(b).value;
      FieldFromParts(f.0, f.1, f.2);
      FieldFromSpan(f.0, f.1, f.2);
    }
    if FieldSpan(s).Some? {
      var f := StretchesOf(s);
      FieldFromParts(f.0, f.1, f.2);
      FieldOfFrom(f.0, f.1, f.2);
      assert s[1..] == b == NAME + ['"'] + (f.0 + ['"'] + (f.1 + ['"'] + f.2));
    }
  }

  lemma StretchesOf(s: string) returns (f: (string, string, string))
    requires FieldSpan(s).Some?
    ensures IsColon(f.0) && IsPayload(f.1) && s == FieldFrom(f.0, f.1) + f.2
  {
    var a, e := FieldSpan(s).value.0, FieldSpan(s).value.1;
    FieldSpanExactly(s, a, e);
    var c: nat :| IsFieldMatch(s, c, a, e);
    f := (s[10..a - 1], s[a..e], s[e + 1..]);
    assert forall k :: 0 <= k < |f.0| ==> f.0[k] == s[10 + k];
    assert ColonAt(f.0, c - 10);
    FieldCut(s, a, e);
  }

  lemma FieldCut(s: string, a: nat, e: nat)
    requires 10 < a < e < |s| && FIELD <= s && s[a - 1] == s[e] == '"'
    ensures s == FieldFrom(s[10..a - 1], s[a..e]) + s[e + 1..]
  {
    assert s[..10] == FIELD;
    Halves(s, e + 1);
    assert s[..e + 1] == FieldFrom(s[10..a - 1], s[a..e]);
  }

  // ----- what the data URL pass does to stretches

  lemma {:induction false} ReplacedSplit(sc: Scanner, a: string, c: char, b: string)
    requires forall x, y :: StopsAt(sc, x, c, y)
    ensures sc.Replaced(a + [c] + b) == sc.Replaced(a) + [c] + sc.Replaced(b)
    decreases |a|
  {
    var s := a + [c] + b;
    assert StopsAt(sc, a, c, b);
    if a == "" {
      assert s[1..] == b && s[..1] == [c];
    } else {
      var d := sc.Width(a);
      assert sc.Width(s) == d;
      assert s[d..] == a[d..] + [c] + b;
      assert s[..d] == a[..d];
      ReplacedSplit(sc, a[d..], c, b);
      var head := if sc.Hit(a).Some? then sc.Hit(a).value.Text() else a[..d];
      Assoc(head, sc.Replaced(a[d..]), [c]);
      Assoc(head, sc.Replaced(a[d..]) + [c], sc.Replaced(b));
    }
  }

  lemma NoQuoteInPlaceholder(lib: Lib, d: Bytes)
    requires lib.Lawful()
    ensures '"' !in Placeholder(lib.hash(d))
  {
    assert lib.HashLaw(d, d);
  }

  lemma {:induction false} UrlsBringNoQuote(lib: Lib, x: string)
    requires lib.Lawful() && '"' !in x
    ensures '"' !in Urls(lib).Replaced(x)
    decreases |x|
  {
    var sc := Urls(lib);
    if x != "" {
      UrlsBringNoQuote(lib, x[sc.Width(x)..]);
      if sc.Hit(x).Some? { NoQuoteInPlaceholder(lib, sc.Hit(x).value.file.data); }
    }
  }

  /** A text with a data URL in it has a d and a colon. */
  lemma {:induction false} UrlHasColon(lib: Lib, x: string)
    requires lib.Lawful() && Urls(lib).Finds(x) != []
    ensures 'd' in x && ':' in x
    decreases |x|
  {
    var sc := Urls(lib);
    if sc.Len(x) > 0 {
      assert lib.UrlLaw(x, 0);
      assert x[0] == "data:"[0] && x[4] == "data:"[4];
    } else {
      UrlHasColon(lib, x[1..]);
    }
  }

  /** The stretches of a field are left alone, and no other stretch turns into one. */
  lemma StretchKept(lib: Lib, x: string)
    requires lib.Lawful()
    ensures var y := Urls(lib).Replaced(x);
      && (y == NAME <==> x == NAME) && (IsColon(y) <==> IsColon(x)) && (IsPayload(y) <==> IsPayload(x))
      && (x == NAME || IsColon(x) || IsPayload(x) ==> y == x)
  {
    var sc := Urls(lib);
    if sc.Finds(x) == [] {
      NothingFound(sc, x);
    } else {
      UrlsRegular(lib);
      SomethingFound(sc, x);
      UrlHasColon(lib, x);
      var y := sc.Replaced(x);
      if y == NAME || IsColon(y) || IsPayload(y) { ColonQuoteFree(y); }
      NotAStretch(x);
    }
  }

  lemma NotAStretch(x: string)
    requires 'd' in x && ':' in x
    ensures x != NAME && !IsColon(x) && !IsPayload(x)
  {
    if c :| ColonAt(x, c) {
      var i :| 0 <= i < |x| && x[i] == 'd';
      assert Space(x[i]);
    }
  }

  lemma CutQuoteKept(lib: Lib, s: string)
    requires lib.Lawful()
    ensures CutQuote(Urls(lib).Replaced(s)) ==
      match CutQuote(s)
      case None => None
      case Some(parts) => Some((Urls(lib).Replaced(parts.0), Urls(lib).Replaced(parts.1)))
  {
    match CutQuote(s)
    case None =>
      UrlsBringNoQuote(lib, s);
    case Some(parts) =>
      UrlsRegular(lib);
      ReplacedSplit(Urls(lib), parts.0, '"', parts.1);
      UrlsBringNoQuote(lib, parts.0);
      CutQuoteIs(Urls(lib).Replaced(parts.0), Urls(lib).Replaced(parts.1));
  }

  lemma FieldKept(lib: Lib, b: string)
    requires lib.Lawful()
    ensures FieldOf(Urls(lib).Replaced(b)) ==
      match FieldOf(b)
      case None => None
      case Some(f) => Some((f.0, f.1, Urls(lib).Replaced(f.2)))
  {
    CutQuoteKept(lib, b);
    if CutQuote(b).Some? {
      var one := CutQuote(b).value;
      StretchKept(lib, one.0);
      CutQuoteKept(lib, one.1);
      if CutQuote(one.1).Some? {
        var two := CutQuote(one.1).value;
        StretchKept(lib, two.0);
        CutQuoteKept(lib, two.1);
        if CutQuote(two.1).Some? { StretchKept(lib, CutQuote(two.1).value.0); }
      }
    }
  }

  // ----- so it hides no field and uncovers none

  lemma {:induction false} SkipsStretch(lib: Lib, x: string, r: string)
    requires '"' !in x
    ensures Hides(B64Fields(lib), x + r, false) == Hides(B64Fields(lib), r, false)
    decreases |x|
  {
    if x == "" {
      assert x + r == r;
    } else {
      assert (x + r)[1..] == x[1..] + r && (x + r)[0] == x[0];
      if FieldSpan(x + r).Some? { FieldStart(x + r); }
      SkipsStretch(lib, x[1..], r);
    }
  }

  /** At a quote both texts take the same step. */
  lemma StepSame(lib: Lib, b: string)
    requires lib.Lawful()
    ensures var fields, s, t := B64Fields(lib), ['"'] + b, ['"'] + Urls(lib).Replaced(b);
      && fields.Len(t) == fields.Len(s) && fields.Hit(t) == fields.Hit(s)
      && Urls(lib).Replaced(s[fields.Width(s)..]) == t[fields.Width(t)..]
  {
    var t := Urls(lib).Replaced(b);
    OpenedIs(b);
    OpenedIs(t);
    FieldKept(lib, b);
    if FieldOf(b).Some? {
      var f, g := FieldOf(b).value, FieldOf(t).value;
      var m := FieldFrom(f.0, f.1);
      assert (m + f.2)[..|m|] == m == (m + g.2)[..|m|];
      assert (m + f.2)[|m|..] == f.2 && (m + g.2)[|m|..] == g.2;
    } else {
      assert (['"'] + b)[1..] == b && (['"'] + t)[1..] == t;
    }
  }

  lemma FromQuote(lib: Lib, b: string)
    ensures var fields, s := B64Fields(lib), ['"'] + b;
      Hides(fields, s, false) == Hides(fields, s[fields.Width(s)..], fields.Hit(s).Some?)
  {
  }

  /** A quote that opens no field is like any other character. */
  lemma OpensNothing(lib: Lib, s: string)
    requires FieldSpan(['"'] + s).None?
    ensures Hides(B64Fields(lib), s, true) == Hides(B64Fields(lib), s, false)
  {
    assert "\"" + s == ['"'] + s;
  }

  lemma FieldTail(m: string, rest: string, s: string)
    requires |m| > 2 && m[|m| - 1] == '"' && ['"'] + s == m + rest
    ensures |rest| < |s| && s[|m| - 2..] == ['"'] + rest
  {
    assert (m + rest)[|m| - 1..] == ['"'] + rest;
    assert (['"'] + s)[|m| - 1..] == s[|m| - 2..];
  }

  lemma HidesOpened(sc: Scanner, s: string, n: nat, end: string)
    requires 1 < n == sc.Len(['"'] + s) && s[n - 2..] == end != ""
    ensures Hides(sc, s, true) <==> sc.Hit(['"'] + s).Some? || Hides(sc, end[sc.Width(end)..], sc.Len(end) > 0)
  {
    assert "\"" + s == ['"'] + s;
  }

  /** What follows the payload of an opened field. */
  lemma OpensOne(lib: Lib, s: string)
    requires FieldOf(s).Some?
    ensures var fields, open, end := B64Fields(lib), ['"'] + s, ['"'] + FieldOf(s).value.2;
      && |FieldOf(s).value.2| < |s|
      && (Hides(fields, s, true) <==> fields.Hit(open).Some? || Hides(fields, end[fields.Width(end)..], fields.Len(end) > 0))
  {
    OpenedIs(s);
    var f := FieldOf(s).value;
    FieldTail(FieldFrom(f.0, f.1), f.2, s);
    HidesOpened(B64Fields(lib), s, FieldLen(['"'] + s), ['"'] + f.2);
  }

  lemma {:induction false} HidesSame(lib: Lib, s: string, given: bool)
    requires lib.Lawful()
    ensures Hides(B64Fields(lib), Urls(lib).Replaced(s), given) == Hides(B64Fields(lib), s, given)
    decreases |s|, given
  {
    var t := Urls(lib).Replaced(s);
    if given {
      OpenedIs(s);
      OpenedIs(t);
      FieldKept(lib, s);
      StepSame(lib, s);
      if FieldOf(s).Some? {
        OpensOne(lib, s);
        OpensOne(lib, t);
        var rest := FieldOf(s).value.2;
        var end := ['"'] + rest;
        StepSame(lib, rest);
        HidesSame(lib, end[B64Fields(lib).Width(end)..], B64Fields(lib).Len(end) > 0);
      } else {
        OpensNothing(lib, s);
        OpensNothing(lib, t);
        HidesSame(lib, s, false);
      }
    } else {
      HidesSameUnopened(lib, s);
    }
  }

  lemma {:induction false} HidesSameUnopened(lib: Lib, s: string)
    requires lib.Lawful()
    ensures Hides(B64Fields(lib), Urls(lib).Replaced(s), false) == Hides(B64Fields(lib), s, false)
    decreases |s|, false, 0
  {
    var fields, t := B64Fields(lib), Urls(lib).Replaced(s);
    CutQuoteKept(lib, s);
    match CutQuote(s)
    case None =>
      SkipsStretch(lib, s, "");
      SkipsStretch(lib, t, "");
      assert s + "" == s && t + "" == t;
    case Some(parts) =>
      var b := parts.1;
      var x, c, q := parts.0, Urls(lib).Replaced(b), ['"'] + b;
      Assoc(x, ['"'], b);
      Assoc(Urls(lib).Replaced(x), ['"'], c);
      SkipsStretch(lib, x, q);
      SkipsStretch(lib, Urls(lib).Replaced(x), ['"'] + c);
      FromQuote(lib, b);
      FromQuote(lib, c);
      StepSame(lib, b);
      HidesSame(lib, q[fields.Width(q)..], fields.Hit(q).Some?);
  }

  // ----- rewriteText

  /** Whether a text has a field in it that opens with the closing quote of another one that
      is taken out, so that one pass does not see it. */
  predicate TextHides(lib: Lib, s: string) {
    Hides(B64Fields(lib), s, false)
  }

  lemma {:induction false} HiddenIsNamed(lib: Lib, s: string)
    requires TextHides(lib, s)
    ensures Contains(s, "b64_json")
    decreases |s|
  {
    if FieldSpan(s).Some? { NamedAtOne(s); } else { HiddenIsNamed(lib, s[1..]); }
  }

  /** A second rewriteText finds something exactly if the text hides a field. */
  lemma SecondTextPass(lib: Lib, s: string)
    requires lib.Lawful()
    ensures TextFinds(lib, TextRewritten(lib, s)) != [] <==> TextHides(lib, s)
  {
    if MayHoldFiles(s) {
      var urls, fields := Urls(lib), B64Fields(lib);
      var out := fields.Replaced(urls.Replaced(s));
      UrlsGoneFromText(lib, s);
      NothingFound(urls, out);
      FieldsQuoted(lib);
      SecondPass(fields, lib, urls.Replaced(s), false);
      HidesSame(lib, s, false);
      if fields.Finds(out) != [] { FieldsNameThemselves(lib, out); }
    } else if TextHides(lib, s) {
      HiddenIsNamed(lib, s);
    }
  }
}
