/** What an extraction guarantees of a tree: nothing is lost, nothing else is touched, and
    exactly when a second extraction has nothing left to do. */
module FileTheorems {
  import opened Sequences
  import opened Options
  import opened Bytes
  import opened Json
  import opened FileText
  import opened TextScanners
  import opened FileTextTheorems
  import opened TextSecondPass
  import opened Files
  import opened FileLists

  // ----- changed or not

  ghost predicate PlainAt(sc: Scanner, s: string) {
    sc.Hit(s).Some? ==> |sc.Hit(s).value.kept| < sc.Len(s) && s[|sc.Hit(s).value.kept|] != '<'
  }

  lemma {:induction false} FoundMeansChanged(sc: Scanner, s: string)
    requires (forall t :: PlainAt(sc, t)) && sc.Finds(s) != []
    ensures sc.Replaced(s) != s
    decreases |s|
  {
    var d := sc.Width(s);
    if sc.Hit(s).Some? {
      assert PlainAt(sc, s);
      MarkAfterKept(sc.Hit(s).value, sc.Replaced(s[d..]));
    } else {
      FoundMeansChanged(sc, s[d..]);
      assert sc.Replaced(s)[d..] == sc.Replaced(s[d..]);
    }
  }

  lemma TextFoundMeansChanged(lib: Lib, s: string)
    requires lib.Lawful() && TextFinds(lib, s) != []
    ensures TextRewritten(lib, s) != s
  {
    var urls, fields := Urls(lib), B64Fields(lib);
    if urls.Finds(s) != [] {
      UrlsGoneFromText(lib, s);
    } else {
      NothingFound(urls, s);
      forall t ensures PlainAt(fields, t) {
        FieldsQuoted(lib);
        assert SwapAt(fields, lib, t);
        if fields.Hit(t).Some? { FieldParts(lib, t); FieldChars(t, |fields.Hit(t).value.kept|); }
      }
      FoundMeansChanged(fields, s);
    }
  }

  lemma {:induction false} TreeFoundMeansChanged(lib: Lib, v: Json, f: File)
    requires lib.Lawful() && f in Found(lib, v)
    ensures Rewritten(lib, v) != v
    decreases v
  {
    match v
    case Str(s) =>
      TextFoundMeansChanged(lib, s);
    case Arr(items) =>
      var i :| 0 <= i < |items| && f in Found(lib, items[i]);
      TreeFoundMeansChanged(lib, items[i], f);
      assert Rewritten(lib, v).items[i] == Rewritten(lib, items[i]);
    case Obj(m) =>
      if f in DirectList(lib, m) {
        var k := DirectKey(lib, m, f);
        PlaceholderNotDecoded(lib, f.sha);
        assert Rewritten(lib, v).fields[k] == PlaceholderOf(f);
      } else {
        var k :| k in m.Keys - DirectFields(lib, m) && f in Found(lib, m[k]);
        TreeFoundMeansChanged(lib, m[k], f);
        assert Rewritten(lib, v).fields[k] == Rewritten(lib, m[k]);
      }
  }

  lemma DirectKey(lib: Lib, m: Fields, f: File) returns (k: string)
    requires f in DirectList(lib, m)
    ensures Direct(lib, m, k) == Some(f) && k in m && m[k].Str? && lib.decode(m[k].val) == Some(f.data)
      && f.sha == lib.hash(f.data)
  {
    k := if Direct(lib, m, "data") == Some(f) then "data"
         else if Direct(lib, m, "b64_json") == Some(f) then "b64_json" else "data_base64";
    DirectIsPayload(lib, m, k);
  }

  /** The tree is left as it was exactly if no file is found in it. */
  lemma ChangedExactly(lib: Lib, v: Json)
    requires lib.Lawful()
    ensures Rewritten(lib, v) == v <==> Found(lib, v) == iset{}
  {
    if Found(lib, v) == iset{} {
      NothingInTree(lib, v);
    } else {
      var f :| f in Found(lib, v);
      TreeFoundMeansChanged(lib, v, f);
    }
  }

  // ----- every placeholder stands for a payload that is in the list

  /** A text as a sequence of stretches, some of them swapped for a placeholder. */
  datatype Edit = Kept(text: string) | Swapped(text: string, file: File)
  {
    function After(): string {
      if Kept? then text else Placeholder(file.sha)
    }
  }

  function Before(es: seq<Edit>): string {
    if es == [] then "" else es[0].text + Before(es[1..])
  }

  function After(es: seq<Edit>): string {
    if es == [] then "" else es[0].After() + After(es[1..])
  }

  /** The text is a payload, or a data URL with a payload, that decodes to data. */
  predicate Carries(lib: Lib, text: string, data: Bytes) {
    || lib.decode(text) == Some(data)
    || (lib.parseUrl(text).Some? && lib.decode(lib.parseUrl(text).value.1) == Some(data))
  }

  predicate Listed(files: seq<File>, f: File) {
    exists i :: 0 <= i < |files| && files[i].sha == f.sha && files[i].data == f.data
  }

  predicate Justified(lib: Lib, files: seq<File>, es: seq<Edit>) {
    forall i :: 0 <= i < |es| && es[i].Swapped? ==>
      Carries(lib, es[i].text, es[i].file.data) && Listed(files, es[i].file)
  }

  /** after is before with stretches swapped for placeholders, twice over. */
  ghost predicate TextSound(lib: Lib, files: seq<File>, before: string, after: string) {
    exists es, fs :: TextEdited(lib, files, before, es, fs, after)
  }

  predicate TextEdited(lib: Lib, files: seq<File>, before: string, es: seq<Edit>, fs: seq<Edit>, after: string) {
    && Justified(lib, files, es) && Justified(lib, files, fs)
    && before == Before(es) && After(es) == Before(fs) && After(fs) == after
  }

  /** Every placeholder of after has an entry in files with the bytes of the payload it took
      the place of, and everything else of before is in after as it was. */
  ghost predicate Sound(lib: Lib, files: seq<File>, before: Json, after: Json)
    decreases before
  {
    match before
    case Str(s) => after.Str? && TextSound(lib, files, s, after.val)
    case Arr(items) =>
      after.Arr? && |after.items| == |items| && forall i :: 0 <= i < |items| ==> Sound(lib, files, items[i], after.items[i])
    case Obj(m) =>
      after.Obj? && after.fields.Keys == m.Keys && forall k :: k in m ==> Sound(lib, files, m[k], after.fields[k])
    case _ => after == before
  }

  function Edits(sc: Scanner, s: string): seq<Edit>
    decreases |s|
  {
    if s == "" then []
    else
      var d, hit := sc.Width(s), sc.Hit(s);
      (if hit.Some? then Around(s[..d], hit.value) else [Kept(s[..d])]) + Edits(sc, s[d..])
  }

  function Around(m: string, swap: Swap): seq<Edit> {
    if |swap.kept| + |swap.tail| <= |m|
    then [Kept(swap.kept), Swapped(m[|swap.kept|..|m| - |swap.tail|], swap.file), Kept(swap.tail)]
    else []
  }

  /** A hit keeps the ends of the match and swaps a payload between them. */
  ghost predicate CarriesAt(sc: Scanner, lib: Lib, s: string) {
    sc.Hit(s).Some? ==>
      var swap, m := sc.Hit(s).value, s[..sc.Len(s)];
      && |swap.kept| + |swap.tail| <= |m|
      && m == swap.kept + m[|swap.kept|..|m| - |swap.tail|] + swap.tail
      && Carries(lib, m[|swap.kept|..|m| - |swap.tail|], swap.file.data)
      && swap.file.sha == lib.hash(swap.file.data)
  }

  lemma UrlsCarry(lib: Lib)
    ensures forall s :: CarriesAt(Urls(lib), lib, s)
  {
    forall s ensures CarriesAt(Urls(lib), lib, s) {
      var m := s[..Urls(lib).Len(s)];
      assert m[0..|m|] == m && "" + m + "" == m;
    }
  }

  lemma FieldsCarry(lib: Lib)
    ensures forall s :: CarriesAt(B64Fields(lib), lib, s)
  {
    forall s ensures CarriesAt(B64Fields(lib), lib, s) {
      if B64Fields(lib).Hit(s).Some? {
        FieldParts(lib, s);
        FieldPayload(lib, s);
      }
    }
  }

  lemma FieldPayload(lib: Lib, s: string)
    requires B64Fields(lib).Hit(s).Some?
    ensures var swap, m := B64Fields(lib).Hit(s).value, s[..FieldLen(s)];
      && |swap.kept| + 1 <= |m| && swap.payload == m[|swap.kept|..|m| - 1]
      && m == swap.kept + swap.payload + swap.tail && |swap.tail| == 1
      && lib.decode(swap.payload) == Some(swap.file.data)
  {
    FieldSwapIs(lib, s);
    var a, b := FieldSpan(s).value.0, FieldSpan(s).value.1;
    CutTwice(s[..FieldLen(s)], a, b);
  }

  lemma CutTwice(m: string, a: nat, b: nat)
    requires a <= b <= |m|
    ensures m == m[..a] + m[a..b] + m[b..]
  {
  }

  lemma EditsOfHit(es: seq<Edit>, a: Edit, b: Edit, c: Edit)
    ensures Before([a, b, c] + es) == a.text + b.text + c.text + Before(es)
    ensures After([a, b, c] + es) == a.After() + b.After() + c.After() + After(es)
  {
    var one, two := [c] + es, [b] + ([c] + es);
    assert [a, b, c] + es == [a] + two;
    EditsOfOne(es, c);
    EditsOfOne(one, b);
    EditsOfOne(two, a);
    Assoc(b.text, c.text, Before(es));
    Assoc(a.text, b.text + c.text, Before(es));
    Assoc(a.text, b.text, c.text);
    Assoc(b.After(), c.After(), After(es));
    Assoc(a.After(), b.After() + c.After(), After(es));
    Assoc(a.After(), b.After(), c.After());
  }

  lemma EditsOfOne(es: seq<Edit>, e: Edit)
    ensures Before([e] + es) == e.text + Before(es) && After([e] + es) == e.After() + After(es)
  {
    assert ([e] + es)[1..] == es;
  }

  lemma {:induction false} EditsAre(sc: Scanner, lib: Lib, s: string)
    requires forall t :: CarriesAt(sc, lib, t)
    ensures Before(Edits(sc, s)) == s && After(Edits(sc, s)) == sc.Replaced(s)
    decreases |s|
  {
    if s != "" {
      var d := sc.Width(s);
      EditsAre(sc, lib, s[d..]);
      var es := Edits(sc, s[d..]);
      Halves(s, d);
      if sc.Hit(s).Some? {
        assert CarriesAt(sc, lib, s);
        var around := Around(s[..d], sc.Hit(s).value);
        EditsOfHit(es, around[0], around[1], around[2]);
      } else {
        assert ([Kept(s[..d])] + es)[1..] == es;
      }
    }
  }

  lemma {:induction false} EditsJustified(sc: Scanner, lib: Lib, s: string, files: seq<File>)
    requires forall t :: CarriesAt(sc, lib, t)
    requires forall i :: 0 <= i < |sc.Finds(s)| ==> Listed(files, sc.Finds(s)[i])
    ensures Justified(lib, files, Edits(sc, s))
    decreases |s|
  {
    if s != "" {
      var d := sc.Width(s);
      var rest := sc.Finds(s[d..]);
      forall i | 0 <= i < |rest| ensures Listed(files, rest[i]) {
        assert rest[i] == sc.Finds(s)[|sc.Finds(s)| - |rest| + i];
      }
      EditsJustified(sc, lib, s[d..], files);
      assert CarriesAt(sc, lib, s);
      if sc.Hit(s).Some? { assert sc.Finds(s)[0] == sc.Hit(s).value.file; }
    }
  }

  lemma TextIsSound(lib: Lib, s: string, files: seq<File>)
    requires forall f :: f in TextFinds(lib, s) ==> Listed(files, f)
    ensures TextSound(lib, files, s, TextRewritten(lib, s))
  {
    if MayHoldFiles(s) {
      var urls, fields := Urls(lib), B64Fields(lib);
      var mid := urls.Replaced(s);
      UrlsCarry(lib);
      FieldsCarry(lib);
      EditsAre(urls, lib, s);
      EditsAre(fields, lib, mid);
      assert forall f :: f in TextFinds(lib, s) <==> f in urls.Finds(s) || f in fields.Finds(mid);
      EditsJustified(urls, lib, s, files);
      EditsJustified(fields, lib, mid, files);
      assert TextEdited(lib, files, s, Edits(urls, s), Edits(fields, mid), TextRewritten(lib, s));
    } else {
      OneEdit(Kept(s));
      assert TextEdited(lib, files, s, [Kept(s)], [Kept(s)], s);
    }
  }

  lemma OneEdit(e: Edit)
    ensures Before([e]) == e.text && After([e]) == e.After()
  {
    assert [e][1..] == [];
    assert e.text + "" == e.text && e.After() + "" == e.After();
  }

  lemma {:induction false} TreeIsSound(lib: Lib, v: Json, files: seq<File>)
    requires forall f :: f in Found(lib, v) ==> Listed(files, f)
    ensures Sound(lib, files, v, Rewritten(lib, v))
    decreases v
  {
    match v
    case Str(s) =>
      assert forall f :: f in TextFinds(lib, s) ==> f in Found(lib, v);
      TextIsSound(lib, s, files);
    case Arr(items) =>
      forall i | 0 <= i < |items| ensures Sound(lib, files, items[i], Rewritten(lib, v).items[i]) {
        assert forall f :: f in Found(lib, items[i]) ==> f in Found(lib, v);
        TreeIsSound(lib, items[i], files);
      }
    case Obj(m) =>
      forall k | k in m ensures Sound(lib, files, m[k], Rewritten(lib, v).fields[k]) {
        if Direct(lib, m, k).Some? {
          DirectInFound(lib, m, k);
          DirectIsPayload(lib, m, k);
          var f := Direct(lib, m, k).value;
          OneEdit(Swapped(m[k].val, f));
          OneEdit(Kept(Placeholder(f.sha)));
          assert TextEdited(lib, files, m[k].val, [Swapped(m[k].val, f)], [Kept(Placeholder(f.sha))], Placeholder(f.sha));
        } else {
          assert forall f :: f in Found(lib, m[k]) ==> f in Found(lib, v);
          TreeIsSound(lib, m[k], files);
        }
      }
    case _ =>
  }

  lemma {:induction false} FindsGenuine(sc: Scanner, lib: Lib, s: string, f: File)
    requires (forall t :: CarriesAt(sc, lib, t)) && f in sc.Finds(s)
    ensures f.sha == lib.hash(f.data)
    decreases |s|
  {
    assert CarriesAt(sc, lib, s);
    if !(sc.Hit(s).Some? && f == sc.Hit(s).value.file) { FindsGenuine(sc, lib, s[sc.Width(s)..], f); }
  }

  lemma {:induction false} FoundGenuine(lib: Lib, v: Json, f: File)
    requires f in Found(lib, v)
    ensures f.sha == lib.hash(f.data)
    decreases v
  {
    match v
    case Str(s) =>
      UrlsCarry(lib);
      FieldsCarry(lib);
      var mid := Urls(lib).Replaced(s);
      if f in Urls(lib).Finds(s) { FindsGenuine(Urls(lib), lib, s, f); } else { FindsGenuine(B64Fields(lib), lib, mid, f); }
    case Arr(items) =>
      var i :| 0 <= i < |items| && f in Found(lib, items[i]);
      FoundGenuine(lib, items[i], f);
    case Obj(m) =>
      if f in DirectList(lib, m) {
        var k := DirectKey(lib, m, f);
      } else {
        var k :| k in m.Keys - DirectFields(lib, m) && f in Found(lib, m[k]);
        FoundGenuine(lib, m[k], f);
      }
  }

  ghost predicate Genuine(lib: Lib, fs: iset<File>) {
    forall f :: f in fs ==> f.sha == lib.hash(f.data)
  }

  lemma AllFoundGenuine(lib: Lib, v: Json)
    ensures Genuine(lib, Found(lib, v))
  {
    forall f | f in Found(lib, v) ensures f.sha == lib.hash(f.data) { FoundGenuine(lib, v, f); }
  }

  /** A list that keeps the first file of each digest accounts for every placeholder of a tree
      whose files are among those it was made of. */
  lemma SoundAmong(lib: Lib, v: Json, got: seq<File>)
    requires lib.Lawful() && Found(lib, v) <= In(got) && Genuine(lib, In(got))
    ensures Sound(lib, FirstOfEach(got), v, Rewritten(lib, v))
  {
    var files := FirstOfEach(got);
    FirstOfEachDistinct(got);
    forall f | f in Found(lib, v) ensures Listed(files, f) {
      assert f in In(got) && f.sha in Shas(files);
      var i :| 0 <= i < |files| && files[i].sha == f.sha;
      FirstOfEachInOrder(got, i, i);
      assert files[i] in In(got);
      assert lib.HashLaw(f.data, files[i].data);
    }
    TreeIsSound(lib, v, files);
  }

  /** The list an extraction ends with accounts for every placeholder it wrote. */
  lemma ExtractionSound(lib: Lib, v: Json, got: seq<File>)
    requires lib.Lawful() && In(got) == Found(lib, v)
    ensures Sound(lib, FirstOfEach(got), v, Rewritten(lib, v))
  {
    AllFoundGenuine(lib, v);
    SoundAmong(lib, v, got);
  }

  // ----- a second extraction

  /** The trees with a text in them that hides a field behind the quote of another one. */
  predicate TreeHides(lib: Lib, v: Json)
    decreases v
  {
    match v
    case Str(s) => TextHides(lib, s)
    case Arr(items) => exists i :: 0 <= i < |items| && TreeHides(lib, items[i])
    case Obj(m) => exists k :: k in m && Direct(lib, m, k).None? && TreeHides(lib, m[k])
    case _ => false
  }

  lemma PlaceholderHoldsNothing(lib: Lib, d: Bytes)
    requires lib.Lawful()
    ensures Found(lib, Str(Placeholder(lib.hash(d)))) == iset{}
  {
    var ph, urls, fields := Placeholder(lib.hash(d)), Urls(lib), B64Fields(lib);
    PlaceholderQuiet(urls, lib);
    PlaceholderQuiet(fields, lib);
    assert QuietAt(urls, lib, d, "") && QuietAt(fields, lib, d, "") && ph + "" == ph;
    NothingFound(urls, ph);
  }

  /** The text of a field after an extraction: as before, or with a placeholder in it. */
  lemma FieldTextAfter(lib: Lib, m: Fields, field: string)
    requires lib.Lawful()
    ensures var after := Rewritten(lib, Obj(m)).fields;
      && (Text(after, field) == Text(m, field) || '<' in Text(after, field))
      && (Direct(lib, m, field).Some? ==> '<' in Text(after, field))
  {
    DirectPresent(lib, m, field);
    if field in m && Direct(lib, m, field).Some? {
      assert Placeholder(Direct(lib, m, field).value.sha)[0] == '<';
    } else if field in m && m[field].Str? {
      TextChanged(lib, m[field].val);
    }
  }

  /** A field that decodes, or picks a format, has no placeholder in it. */
  lemma NoMark(lib: Lib, text: string)
    requires lib.Lawful() && '<' in text
    ensures lib.decode(text).None? && text != "base64" && text != "image" && text != ""
    ensures lib.lower(text) !in AUDIO_FORMATS && lib.lower(lib.trim(text)) !in SYSTEM_ONE_FORMATS
  {
    assert lib.MarkLaw(text) && lib.MarkLaw(lib.trim(text));
  }

  /** A field that still decodes is as it was, and no rule applied to it. */
  lemma PayloadAgain(lib: Lib, m: Fields, field: string, mime: string, mime2: string)
    requires lib.Lawful() && PayloadFile(lib, Rewritten(lib, Obj(m)).fields, field, mime).Some?
    ensures Text(Rewritten(lib, Obj(m)).fields, field) == Text(m, field)
    ensures PayloadFile(lib, m, field, mime2).Some? && Direct(lib, m, field).None?
  {
    var after := Rewritten(lib, Obj(m)).fields;
    FieldTextAfter(lib, m, field);
    if '<' in Text(after, field) { NoMark(lib, Text(after, field)); }
  }

  lemma NoDirectAgain(lib: Lib, m: Fields, field: string)
    requires lib.Lawful()
    ensures Direct(lib, Rewritten(lib, Obj(m)).fields, field).None?
  {
    var after := Rewritten(lib, Obj(m)).fields;
    if Direct(lib, after, field).Some? {
      FieldTextAfter(lib, m, "type");
      FieldTextAfter(lib, m, "format");
      if '<' in Text(after, "type") { NoMark(lib, Text(after, "type")); }
      if '<' in Text(after, "format") { NoMark(lib, Text(after, "format")); }
      if field == "data" {
        var mime := if Base64Source(lib, after).Some? then Text(after, "media_type")
                    else Lookup(AUDIO_FORMATS, lib.lower(Text(after, "format")));
        var mime2 := if Base64Source(lib, after).Some? then Text(m, "media_type") else mime;
        PayloadAgain(lib, m, field, mime, mime2);
      } else {
        var mime := if field == "b64_json" then "" else SystemOneMime(lib, after);
        PayloadAgain(lib, m, field, mime, mime);
      }
    }
  }

  lemma {:induction false} SecondPassFinds(lib: Lib, v: Json)
    requires lib.Lawful()
    ensures Found(lib, Rewritten(lib, v)) != iset{} <==> TreeHides(lib, v)
    decreases v
  {
    match v
    case Str(s) =>
      SecondTextPass(lib, s);
      NoneIn(TextFinds(lib, TextRewritten(lib, s)));
    case Arr(items) =>
      forall i | 0 <= i < |items|
        ensures Found(lib, Rewritten(lib, v).items[i]) != iset{} <==> TreeHides(lib, items[i])
      {
        SecondPassFinds(lib, items[i]);
      }
      ItemsFoundSome(lib, Rewritten(lib, v).items);
    case Obj(m) =>
      var after := Rewritten(lib, v).fields;
      NoDirectAgain(lib, m, "data");
      NoDirectAgain(lib, m, "b64_json");
      NoDirectAgain(lib, m, "data_base64");
      forall k | k in m
        ensures Direct(lib, after, k).None?
        ensures Found(lib, after[k]) != iset{} <==> Direct(lib, m, k).None? && TreeHides(lib, m[k])
      {
        NoDirectAgain(lib, m, k);
        if Direct(lib, m, k).Some? {
          DirectIsPayload(lib, m, k);
          PlaceholderHoldsNothing(lib, Direct(lib, m, k).value.data);
        } else {
          SecondPassFinds(lib, m[k]);
        }
      }
      assert DirectFields(lib, after) == {} && DirectList(lib, after) == [];
      FieldsFoundSome(lib, after);
      assert after.Keys - {} == after.Keys;
    case _ =>
  }

  lemma ItemsFoundSome(lib: Lib, items: seq<Json>)
    ensures Found(lib, Arr(items)) != iset{} <==> exists i :: 0 <= i < |items| && Found(lib, items[i]) != iset{}
  {
    if i :| 0 <= i < |items| && Found(lib, items[i]) != iset{} {
      var f :| f in Found(lib, items[i]);
      assert f in Found(lib, Arr(items));
    }
  }

  lemma FieldsFoundSome(lib: Lib, m: Fields)
    ensures FieldsFound(lib, m, m.Keys) != iset{} <==> exists k :: k in m && Found(lib, m[k]) != iset{}
  {
    if k :| k in m && Found(lib, m[k]) != iset{} {
      var f :| f in Found(lib, m[k]);
      assert f in FieldsFound(lib, m, m.Keys);
    }
  }

  /** A second extraction finds nothing exactly if no text of the tree hides a field. */
  lemma SecondExtractionExactly(lib: Lib, v: Json)
    requires lib.Lawful()
    ensures Found(lib, Rewritten(lib, v)) == iset{} <==> !TreeHides(lib, v)
    ensures Rewritten(lib, Rewritten(lib, v)) == Rewritten(lib, v) <==> !TreeHides(lib, v)
  {
    SecondPassFinds(lib, v);
    ChangedExactly(lib, Rewritten(lib, v));
  }

  // ----- a tree that hides one

  /** So extraction is not idempotent: any payload that decodes gives a text whose second
      field is only found the second time. */
  lemma LinkedFieldLeft(lib: Lib, p: string)
    requires lib.Lawful() && IsPayload(p) && lib.decode(p).Some?
    ensures Found(lib, Rewritten(lib, Str(Linked(p)))) != iset{}
  {
    LinkedHides(lib, p);
    SecondPassFinds(lib, Str(Linked(p)));
  }
}
