/** What a second rewriteText finds in a rewritten text. */
module FileTextTheorems {
  import opened Sequences
  import opened Options
  import opened Bytes
  import opened FileText
  import opened TextScanners

  // ----- matches look at nothing past their end and do not cross < or >

  lemma {:induction false} SpaceSame(s: string, t: string, i: nat, k: nat)
    requires Agree(s, t, k) && i <= k && SkipSpace(s, i) < k
    ensures SkipSpace(t, i) == SkipSpace(s, i)
    decreases k - i
  {
    if Space(s[i]) { SpaceSame(s, t, i + 1, k); }
  }

  lemma {:induction false} PayloadSame(s: string, t: string, i: nat, k: nat)
    requires Agree(s, t, k) && i <= k && SkipPayload(s, i) < k
    ensures SkipPayload(t, i) == SkipPayload(s, i)
    decreases k - i
  {
    if PayloadChar(s[i]) { PayloadSame(s, t, i + 1, k); }
  }

  lemma StartOfPayloadSame(s: string, t: string, k: nat)
    requires Agree(s, t, k) && PayloadStart(s).Some? && PayloadStart(s).value <= k
    ensures PayloadStart(t) == PayloadStart(s)
  {
    assert FIELD <= t by {
      forall i | 0 <= i < |FIELD| ensures FIELD[i] == t[i] { assert s[i] == FIELD[i]; }
    }
    SpaceSame(s, t, |FIELD|, k);
    SpaceSame(s, t, SkipSpace(s, |FIELD|) + 1, k);
  }

  lemma FieldSame(s: string, t: string, k: nat)
    requires Agree(s, t, k)
    requires FieldSpan(s).Some? && FieldSpan(s).value.1 < k
    ensures FieldSpan(t) == FieldSpan(s)
  {
    StartOfPayloadSame(s, t, k);
    PayloadSame(s, t, FieldSpan(s).value.0, k);
  }

  // ----- the expression "b64_json"\s*:\s*"[A-Za-z0-9+/=]+"

  predicate IsPayload(p: string) {
    p != "" && forall i :: 0 <= i < |p| ==> PayloadChar(p[i])
  }

  lemma {:induction false} SkipsPayload(s: string, i: nat, j: nat)
    requires i <= j < |s| && !PayloadChar(s[j]) && forall k :: i <= k < j ==> PayloadChar(s[k])
    ensures SkipPayload(s, i) == j
    decreases j - i
  {
    if i < j { SkipsPayload(s, i + 1, j); }
  }

  lemma {:induction false} SkipsSpace(s: string, i: nat, j: nat)
    requires i <= j < |s| && !Space(s[j]) && forall k :: i <= k < j ==> Space(s[k])
    ensures SkipSpace(s, i) == j
    decreases j - i
  {
    if i < j { SkipsSpace(s, i + 1, j); }
  }

  /** s starts with a match whose colon is at colon and whose payload is s[start..end]. */
  ghost predicate IsFieldMatch(s: string, colon: nat, start: nat, end: nat) {
    && |FIELD| <= colon < start - 1 && start < end < |s|
    && FIELD <= s && s[colon] == ':' && s[start - 1] == '"' && s[end] == '"'
    && (forall k :: |FIELD| <= k < colon || colon < k < start - 1 ==> Space(s[k]))
    && (forall k :: start <= k < end ==> PayloadChar(s[k]))
  }

  lemma FieldMatchSpan(s: string, colon: nat, start: nat, end: nat)
    requires IsFieldMatch(s, colon, start, end)
    ensures FieldSpan(s) == Some((start, end))
  {
    SkipsSpace(s, |FIELD|, colon);
    SkipsSpace(s, colon + 1, start - 1);
    SkipsPayload(s, start, end);
  }

  /** FieldSpan finds the match of the expression, and nothing else. */
  lemma FieldSpanExactly(s: string, start: nat, end: nat)
    ensures FieldSpan(s) == Some((start, end)) <==> exists colon :: IsFieldMatch(s, colon, start, end)
  {
    if FieldSpan(s) == Some((start, end)) {
      assert IsFieldMatch(s, SkipSpace(s, |FIELD|), start, end);
    } else if colon :| IsFieldMatch(s, colon, start, end) {
      FieldMatchSpan(s, colon, start, end);
    }
  }

  /** Every character of a field match. */
  lemma FieldChars(s: string, i: nat)
    requires FieldSpan(s).Some? && i <= FieldSpan(s).value.1
    ensures s[i] != '<' && s[i] != '>'
    ensures i < |FIELD| ==> s[i] == FIELD[i]
    ensures s[i] == '"' && i > 0 ==> i == |FIELD| - 1 || i == FieldSpan(s).value.0 - 1 || i == FieldSpan(s).value.1
    ensures s[FieldSpan(s).value.0 - 1] == '"' == s[FieldSpan(s).value.1]
    ensures s[|FIELD|] == ':' || Space(s[|FIELD|])
    ensures FieldSpan(s).value.0 <= i < FieldSpan(s).value.1 ==> PayloadChar(s[i])
  {
    if i < |FIELD| { assert s[..|FIELD|][i] == FIELD[i]; }
  }

  // ----- the two scanners are such scanners

  lemma UrlsRegular(lib: Lib)
    requires lib.Lawful()
    ensures Regular(Urls(lib))
    ensures forall a, b :: StopsAt(Urls(lib), a, '"', b)
  {
    var sc := Urls(lib);
    forall s, k: nat ensures EndsAt(sc, s, k) {
      if k <= |s| { assert lib.UrlLaw(s, k) && lib.UrlLaw(s[..k], k); }
    }
    forall a, c, b | c in "<>\"" ensures StopsAt(sc, a, c, b) {
      var s := a + [c] + b;
      assert lib.UrlLaw(s, |a|) && s[|a|] == c && s[..|a|] == a;
      assert EndsAt(sc, s, |a|);
    }
    assert forall a, b :: StopsAt(sc, a, "<>\""[0], b);
    assert forall a, b :: StopsAt(sc, a, "<>\""[1], b);
    assert forall a, b :: StopsAt(sc, a, "<>\""[2], b);
  }

  lemma FieldEnds(lib: Lib, s: string, k: nat)
    ensures EndsAt(B64Fields(lib), s, k)
  {
    if FieldLen(s) <= k <= |s| {
      if FieldSpan(s).Some? {
        FieldSame(s, s[..k], k);
      } else if FieldSpan(s[..k]).Some? {
        FieldSame(s[..k], s, k);
      }
    }
  }

  lemma FieldsRegular(lib: Lib)
    ensures Regular(B64Fields(lib))
  {
    var sc := B64Fields(lib);
    forall s, k: nat ensures EndsAt(sc, s, k) { FieldEnds(lib, s, k); }
    forall a, c, b | c == '<' || c == '>' ensures StopsAt(sc, a, c, b) {
      var s := a + [c] + b;
      assert s[|a|] == c && s[..|a|] == a;
      if FieldSpan(s).Some? && |a| <= FieldSpan(s).value.1 { FieldChars(s, |a|); }
      assert EndsAt(sc, s, |a|);
    }
    forall s ensures KeepsAt(sc, s) {
      if sc.Hit(s).Some? { FieldParts(lib, s); }
    }
  }

  /** What a replaced field is replaced by. */
  lemma FieldSwapIs(lib: Lib, s: string)
    requires B64Fields(lib).Hit(s).Some?
    ensures FieldSpan(s).Some? && 0 < FieldLen(s) == B64Fields(lib).Width(s)
    ensures var m, a, b, swap := s[..FieldLen(s)], FieldSpan(s).value.0, FieldSpan(s).value.1, B64Fields(lib).Hit(s).value;
      && FieldSpan(m) == FieldSpan(s)
      && swap.kept == m[..a] && swap.payload == m[a..b] && swap.tail == m[b..]
      && swap.file.sha == lib.hash(swap.file.data) && lib.decode(swap.payload) == Some(swap.file.data)
  {
    FieldSame(s, s[..FieldLen(s)], FieldLen(s));
  }

  /** A replaced field, taken apart. */
  lemma FieldParts(lib: Lib, s: string)
    requires B64Fields(lib).Hit(s).Some?
    ensures FieldSpan(s).Some? && 0 < FieldLen(s) == B64Fields(lib).Width(s)
    ensures var swap := B64Fields(lib).Hit(s).value;
      && |swap.kept| == FieldSpan(s).value.0 && swap.kept <= s
      && swap.kept == s[..|swap.kept| - 1] + ['"']
      && swap.tail == ['"']
      && s == swap.kept + swap.payload + swap.tail + s[FieldLen(s)..]
      && swap.file.sha == lib.hash(swap.file.data)
  {
    FieldSwapIs(lib, s);
    var a, b := FieldSpan(s).value.0, FieldSpan(s).value.1;
    FieldChars(s, a - 1);
    FieldChars(s, b);
    ThreeParts(s, s[..FieldLen(s)], a, b);
  }

  lemma ThreeParts(s: string, m: string, a: nat, b: nat)
    requires 0 < a <= b < |s| && m == s[..b + 1] && s[a - 1] == s[b] == '"'
    ensures s == m[..a] + m[a..b] + m[b..] + s[b + 1..]
    ensures m[..a] == s[..a] == s[..a - 1] + ['"'] && m[b..] == ['"'] && s[..a][..a - 1] == s[..a - 1]
  {
    assert m == m[..a] + m[a..b] + m[b..];
    assert s == m + s[b + 1..];
  }

  // ----- placeholders hold nothing

  lemma InPlaceholder(sc: Scanner, lib: Lib, d: Bytes, i: nat, y: string)
    requires lib.Lawful() && (sc == Urls(lib) || sc == B64Fields(lib))
    requires i < |Placeholder(lib.hash(d))|
    ensures sc.Len(Placeholder(lib.hash(d))[i..] + y) == 0
  {
    var ph := Placeholder(lib.hash(d));
    var a := ph[i..|ph| - 1];
    assert ph[i..] + y == a + ['>'] + y;
    UrlsRegular(lib);
    FieldsRegular(lib);
    assert StopsAt(sc, a, '>', y);
    assert lib.HashLaw(d, d) && lib.UrlLaw(a, 0);
    assert forall j :: 6 <= j < |ph| - 1 ==> HexDigit(ph[j]);
    assert forall j :: 0 <= j < |a| ==> a[j] == ph[i + j];
    if FieldSpan(a).Some? { FieldChars(a, 0); }
    assert "data:"[4] == ':' && "data:"[0] == 'd';
  }

  lemma PlaceholderQuiet(sc: Scanner, lib: Lib)
    requires lib.Lawful() && (sc == Urls(lib) || sc == B64Fields(lib))
    ensures forall d, y :: QuietAt(sc, lib, d, y)
  {
    forall d, y ensures QuietAt(sc, lib, d, y) {
      var ph := Placeholder(lib.hash(d));
      forall i | 0 <= i < |ph| ensures sc.Len(ph[i..] + y) == 0 {
        InPlaceholder(sc, lib, d, i, y);
      }
      Walk(sc, ph, y);
    }
  }

  // ----- data URLs: one pass takes them all

  lemma {:induction false} UrlsAllTaken(lib: Lib, s: string)
    requires lib.Lawful()
    ensures Urls(lib).Finds(Urls(lib).Replaced(s)) == []
    decreases |s|
  {
    var sc := Urls(lib);
    if s != "" {
      UrlsAllTaken(lib, s[sc.Width(s)..]);
      if sc.Hit(s).Some? {
        PlaceholderQuiet(sc, lib);
        assert QuietAt(sc, lib, sc.Hit(s).value.file.data, sc.Replaced(s[sc.Width(s)..]));
        assert sc.Hit(s).value.Text() == Placeholder(sc.Hit(s).value.file.sha);
      } else {
        UrlsRegular(lib);
        StepKept(sc, s);
      }
    }
  }

  // ----- the field pass brings no data URL back

  lemma {:induction false} FieldsBringNoUrl(lib: Lib, pre: string, s: string)
    requires lib.Lawful() && Urls(lib).Finds(pre + s) == []
    ensures Urls(lib).Finds(pre + B64Fields(lib).Replaced(s)) == []
    decreases |s|
  {
    if s != "" {
      var d := B64Fields(lib).Width(s);
      var rest := B64Fields(lib).Replaced(s[d..]);
      if B64Fields(lib).Hit(s).Some? {
        NoUrlAfter(lib, pre, s);
        Assoc("", s[d..], "");
        FieldsBringNoUrl(lib, "", s[d..]);
        Assoc("", rest, "");
        NoUrlInSwap(lib, pre, s, rest);
        Assoc(pre, B64Fields(lib).Hit(s).value.Text(), rest);
      } else {
        Halves(s, d);
        Assoc(pre, s[..d], s[d..]);
        FieldsBringNoUrl(lib, pre + s[..d], s[d..]);
        Assoc(pre, s[..d], rest);
      }
    }
  }

  lemma Regroup(a: string, b: string, m: string, c: string)
    ensures a + ((b + ['"']) + m + ['"'] + c) == (a + b) + ['"'] + (m + ['"'] + c)
  {
    var quote := ['"'];
    var end := m + quote + c;
    Assoc(b + quote, m + quote, c);
    Assoc(b + quote, m, quote);
    Assoc(a, b + quote, end);
    Assoc(a, b, quote);
  }

  lemma NoUrlAfter(lib: Lib, pre: string, s: string)
    requires lib.Lawful() && Urls(lib).Finds(pre + s) == [] && B64Fields(lib).Hit(s).Some?
    ensures B64Fields(lib).Width(s) == FieldLen(s)
    ensures var kept := B64Fields(lib).Hit(s).value.kept;
      Urls(lib).Finds(s[FieldLen(s)..]) == Urls(lib).Finds(pre + kept[..|kept| - 1]) == []
  {
    FieldParts(lib, s);
    var swap := B64Fields(lib).Hit(s).value;
    var head, after := swap.kept[..|swap.kept| - 1], s[FieldLen(s)..];
    Regroup(pre, head, swap.payload, after);
    UrlAround(lib, pre + head, swap.payload, after);
  }

  lemma NoUrlInSwap(lib: Lib, pre: string, s: string, rest: string)
    requires lib.Lawful() && Urls(lib).Finds(pre + s) == [] && B64Fields(lib).Hit(s).Some?
    requires Urls(lib).Finds(rest) == []
    ensures Urls(lib).Finds(pre + B64Fields(lib).Hit(s).value.Text() + rest) == []
  {
    FieldParts(lib, s);
    NoUrlAfter(lib, pre, s);
    var swap := B64Fields(lib).Hit(s).value;
    var head, ph := swap.kept[..|swap.kept| - 1], Placeholder(swap.file.sha);
    UrlAround(lib, pre + head, ph, rest);
    PlaceholderQuiet(Urls(lib), lib);
    assert QuietAt(Urls(lib), lib, swap.file.data, "");
    assert ph + "" == ph;
    Regroup(pre, head, ph, rest);
    Assoc(pre, swap.Text(), rest);
  }

  /** A quote on either side cuts a text for the data URL scanner. */
  lemma UrlAround(lib: Lib, a: string, m: string, b: string)
    requires lib.Lawful()
    ensures Urls(lib).Finds(a + ['"'] + (m + ['"'] + b)) == Urls(lib).Finds(a) + (Urls(lib).Finds(m) + Urls(lib).Finds(b))
  {
    UrlsRegular(lib);
    FindsSplit(Urls(lib), a, '"', m + ['"'] + b);
    FindsSplit(Urls(lib), m, '"', b);
  }

  // ----- the field scanner meets this

  lemma FieldStart(t: string)
    requires FieldSpan(t).Some?
    ensures t[0] == '"' && t[1] == 'b' && t[2] == '6' && t[3] == '4' && t[4] == '_'
  {
    forall i | 0 <= i < |FIELD| ensures t[i] == FIELD[i] { FieldChars(t, i); }
    assert FIELD[0] == '"' && FIELD[1] == 'b' && FIELD[2] == '6' && FIELD[3] == '4' && FIELD[4] == '_';
  }

  /** No field starts inside a field, before its closing quote. */
  lemma InField(s: string, i: nat, y: string)
    requires FieldSpan(s).Some? && 1 <= i < FieldSpan(s).value.1
    ensures FieldSpan(s[i..FieldLen(s)] + y).None?
  {
    var t := s[i..FieldLen(s)] + y;
    assert forall j :: 0 <= j <= FieldSpan(s).value.1 - i ==> t[j] == s[i + j];
    if FieldSpan(t).Some? {
      FieldStart(t);
      NotAStart(s, i);
    }
  }

  lemma NotAStart(s: string, i: nat)
    requires FieldSpan(s).Some? && 1 <= i < FieldSpan(s).value.1 && s[i] == '"'
    ensures s[i + 1] != 'b' || (i + 2 < FieldLen(s) && s[i + 2] != '6') || (i + 3 < FieldLen(s) && s[i + 3] != '4')
      || (i + 4 < FieldLen(s) && s[i + 4] != '_')
  {
    var span := FieldSpan(s).value;
    FieldChars(s, i);
    FieldChars(s, span.1);
    if i == span.0 - 1 && span.0 + 3 < span.1 { FieldChars(s, span.0 + 3); }
  }

  lemma KeptIsNoField(s: string, kept: string)
    requires FieldSpan(s).Some? && kept == s[..FieldSpan(s).value.0]
    ensures FieldSpan(kept).None?
  {
    StartOfPayloadSame(s, kept, |kept|);
  }

  lemma FieldSettled(lib: Lib, s: string, t: string)
    ensures SettledAt(B64Fields(lib), s, t)
  {
    if FieldSpan(s).Some? && Agree(s, t, FieldLen(s)) { FieldSame(s, t, FieldLen(s)); }
  }

  lemma FieldEndsQuoted(lib: Lib, s: string)
    ensures QuotedAt(B64Fields(lib), s)
  {
    if FieldSpan(s).Some? { FieldChars(s, FieldSpan(s).value.1); }
  }

  lemma FieldAlone(lib: Lib, s: string, i: nat, y: string)
    ensures AloneAt(B64Fields(lib), s, i, y)
  {
    if FieldSpan(s).Some? && 1 <= i < FieldSpan(s).value.1 { InField(s, i, y); }
  }

  lemma FieldSwapped(lib: Lib, s: string)
    ensures SwapAt(B64Fields(lib), lib, s)
  {
    if B64Fields(lib).Hit(s).Some? {
      FieldParts(lib, s);
      KeptIsNoField(s, B64Fields(lib).Hit(s).value.kept);
    }
  }

  lemma FieldsQuoted(lib: Lib)
    requires lib.Lawful()
    ensures Quoted(B64Fields(lib), lib)
  {
    var sc := B64Fields(lib);
    FieldsRegular(lib);
    PlaceholderQuiet(sc, lib);
    forall s, t ensures SettledAt(sc, s, t) { FieldSettled(lib, s, t); }
    forall s ensures QuotedAt(sc, s) { FieldEndsQuoted(lib, s); }
    forall s, i: nat, y ensures AloneAt(sc, s, i, y) { FieldAlone(lib, s, i, y); }
    forall s ensures SwapAt(sc, lib, s) { FieldSwapped(lib, s); }
  }

  // ----- rewriteText

  lemma NamedAtOne(s: string)
    requires FIELD <= s
    ensures Contains(s, "b64_json")
  {
    assert FIELD == "\"" + "b64_json" + "\"";
    assert "b64_json" <= s[1..];
    assert Contains(s[1..], "b64_json");
  }

  lemma {:induction false} FieldsNameThemselves(lib: Lib, s: string)
    requires B64Fields(lib).Finds(s) != []
    ensures Contains(s, "b64_json")
    decreases |s|
  {
    if FieldSpan(s).Some? { NamedAtOne(s); } else { FieldsNameThemselves(lib, s[1..]); }
  }

  /** A text is left as it was, or has a placeholder in it. */
  lemma TextChanged(lib: Lib, s: string)
    requires lib.Lawful()
    ensures TextFinds(lib, s) == [] ==> TextRewritten(lib, s) == s
    ensures TextFinds(lib, s) != [] ==> '<' in TextRewritten(lib, s)
  {
    UrlsRegular(lib);
    FieldsRegular(lib);
    var urls, fields := Urls(lib), B64Fields(lib);
    var mid := urls.Replaced(s);
    if urls.Finds(s) == [] { NothingFound(urls, s); } else { SomethingFound(urls, s); }
    if fields.Finds(mid) == [] { NothingFound(fields, mid); }
    if fields.Finds(mid) != [] || '<' in mid { SomethingFound(fields, mid); }
  }

  lemma UrlsGoneFromText(lib: Lib, s: string)
    requires lib.Lawful() && MayHoldFiles(s)
    ensures Urls(lib).Finds(TextRewritten(lib, s)) == []
  {
    var mid := Urls(lib).Replaced(s);
    UrlsAllTaken(lib, s);
    Assoc("", mid, "");
    FieldsBringNoUrl(lib, "", mid);
    Assoc("", B64Fields(lib).Replaced(mid), "");
  }

  // ----- a text with a field left over

  /** One field and its neighbour that shares its quote: "b64_json":"p"b64_json":"p". */
  function Linked(p: string): string {
    FIELD + (":\"" + p + "\"") + FIELD[1..] + (":\"" + p + "\"")
  }

  lemma FieldIs(p: string, rest: string)
    requires IsPayload(p)
    ensures var s := FIELD + (":\"" + p + "\"") + rest;
      FieldSpan(s) == Some((12, 12 + |p|)) && s[12..12 + |p|] == p && s[FieldLen(s)..] == rest
  {
    var s := FIELD + (":\"" + p + "\"") + rest;
    assert FIELD <= s && s[10] == ':' && s[11] == '"' && s[12 + |p|] == '"';
    assert forall i :: 0 <= i < |p| ==> s[12 + i] == p[i];
    SkipsPayload(s, 12, 12 + |p|);
    assert s[12..12 + |p|] == p;
  }

  lemma FieldHit(lib: Lib, p: string, rest: string)
    requires IsPayload(p) && lib.decode(p).Some?
    ensures B64Fields(lib).Hit(FIELD + (":\"" + p + "\"") + rest).Some?
    ensures B64Fields(lib).Width(FIELD + (":\"" + p + "\"") + rest) == FieldLen(FIELD + (":\"" + p + "\"") + rest)
  {
    var s := FIELD + (":\"" + p + "\"") + rest;
    FieldIs(p, rest);
    var m := s[..FieldLen(s)];
    FieldSame(s, m, |m|);
    assert m[12..12 + |p|] == p;
  }

  /** Linked texts hide their second field from the field pass, whatever the payload. */
  lemma LinkedHides(lib: Lib, p: string)
    requires lib.Lawful() && IsPayload(p) && lib.decode(p).Some?
    ensures Hides(B64Fields(lib), Linked(p), false)
  {
    var rest := FIELD[1..] + (":\"" + p + "\"");
    assert Linked(p) == FIELD + (":\"" + p + "\"") + rest;
    FieldIs(p, rest);
    FieldHit(lib, p, rest);
    OpenedHides(lib, p);
  }

  lemma OpenedHides(lib: Lib, p: string)
    requires lib.Lawful() && IsPayload(p) && lib.decode(p).Some?
    ensures Hides(B64Fields(lib), FIELD[1..] + (":\"" + p + "\""), true)
  {
    var rest := FIELD[1..] + (":\"" + p + "\"");
    var open := FIELD + (":\"" + p + "\"") + "";
    assert "\"" + rest == open;
    FieldIs(p, "");
    FieldHit(lib, p, "");
  }
}
