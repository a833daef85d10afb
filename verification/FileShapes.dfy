/** What an extraction takes: which fields of an object and which stretches of a text, told
    from the object and the text, and wherever in a tree they are. */
module FileShapes {
  import opened Options
  import opened Bytes
  import opened Json
  import opened FileText
  import opened TextScanners
  import opened FileTextTheorems
  import opened TextSecondPass
  import opened Files

  // ----- objects

  /** The MIME type of a file: as it was told, without white space around, or sniffed. */
  function MimeOf(lib: Lib, told: string, data: Bytes): string {
    if lib.trim(told) != "" then lib.trim(told) else lib.sniff(data)
  }

  /** The MIME type of an OpenAI input_audio format. */
  function AudioMime(format: string): string {
    if format == "wav" then "audio/wav"
    else if format == "mp3" || format == "mpeg" then "audio/mpeg"
    else if format == "pcm16" then "audio/pcm"
    else if format == "ogg" then "audio/ogg"
    else if format == "flac" then "audio/flac"
    else if format == "webm" then "audio/webm"
    else ""
  }

  /** The MIME type of a System One image format. */
  function ImageMime(format: string): string {
    if format == "png" then "image/png"
    else if format == "jpg" || format == "jpeg" then "image/jpeg"
    else ""
  }

  /** The text of a field, nothing if it is no string. */
  function Said(m: Fields, field: string): string {
    StrOf(Get(m, field))
  }

  predicate Decodes(lib: Lib, m: Fields, field: string) {
    Said(m, field) != "" && lib.decode(Said(m, field)).Some?
  }

  /** {"type": "base64", "media_type": .., "data": ..} */
  predicate SourceShape(lib: Lib, m: Fields) {
    Said(m, "type") == "base64" && Decodes(lib, m, "data")
  }

  /** {"format": "wav", "data": ..} */
  predicate AudioShape(lib: Lib, m: Fields) {
    && AudioMime(lib.lower(Said(m, "format"))) != ""
    && Decodes(lib, m, "data") && !("data:" <= Said(m, "data"))
  }

  /** {"b64_json": ..} */
  predicate ImageShape(lib: Lib, m: Fields) {
    Decodes(lib, m, "b64_json")
  }

  /** {"type": "image", "format": "png", "data_base64": ..} */
  predicate AssetShape(lib: Lib, m: Fields) {
    && (Said(m, "type") == "image" || Said(m, "type") == "")
    && ImageMime(lib.lower(lib.trim(Said(m, "format")))) != ""
    && Decodes(lib, m, "data_base64")
  }

  predicate Shaped(lib: Lib, m: Fields, field: string) {
    || (field == "data" && (SourceShape(lib, m) || AudioShape(lib, m)))
    || (field == "b64_json" && ImageShape(lib, m))
    || (field == "data_base64" && AssetShape(lib, m))
  }

  /** What the object tells of the MIME type of such a field. */
  function ToldMime(lib: Lib, m: Fields, field: string): string {
    if field == "data" && SourceShape(lib, m) then Said(m, "media_type")
    else if field == "data" then AudioMime(lib.lower(Said(m, "format")))
    else if field == "data_base64" then ImageMime(lib.lower(lib.trim(Said(m, "format"))))
    else ""
  }

  lemma TextIsSaid(m: Fields, field: string)
    ensures Text(m, field) == Said(m, field)
  {
  }

  lemma TablesAre(format: string)
    ensures Lookup(AUDIO_FORMATS, format) == AudioMime(format) && Lookup(SYSTEM_ONE_FORMATS, format) == ImageMime(format)
  {
  }

  lemma AllSaid(lib: Lib, m: Fields)
    ensures forall field :: Text(m, field) == Said(m, field)
    ensures Lookup(AUDIO_FORMATS, lib.lower(Text(m, "format"))) == AudioMime(lib.lower(Said(m, "format")))
    ensures SystemOneMime(lib, m) ==
      if Said(m, "type") == "image" || Said(m, "type") == "" then ImageMime(lib.lower(lib.trim(Said(m, "format")))) else ""
  {
    forall field ensures Text(m, field) == Said(m, field) { TextIsSaid(m, field); }
    TablesAre(lib.lower(Said(m, "format")));
    TablesAre(lib.lower(lib.trim(Said(m, "format"))));
  }

  /** A field is replaced as a whole exactly if the object has one of four shapes. */
  lemma ReplacedExactly(lib: Lib, m: Fields, field: string)
    ensures Direct(lib, m, field).Some? <==> Shaped(lib, m, field)
    ensures Shaped(lib, m, field) ==>
      lib.decode(Said(m, field)).Some?
      && var data := lib.decode(Said(m, field)).value;
         Direct(lib, m, field) == Some(File(lib.hash(data), MimeOf(lib, ToldMime(lib, m, field), data), data))
  {
    AllSaid(lib, m);
  }

  /** Such a field becomes the placeholder of its bytes, and they are found, with the MIME type
      its shape tells; any other field is rewritten like a value of its own. */
  lemma FieldTaken(lib: Lib, m: Fields, field: string)
    requires field in m
    ensures Shaped(lib, m, field) ==>
      lib.decode(Said(m, field)).Some?
      && var data := lib.decode(Said(m, field)).value;
         && Rewritten(lib, Obj(m)).fields[field] == Str("<file:" + lib.hash(data) + ">")
         && File(lib.hash(data), MimeOf(lib, ToldMime(lib, m, field), data), data) in Found(lib, Obj(m))
    ensures !Shaped(lib, m, field) ==>
      Rewritten(lib, Obj(m)).fields[field] == Rewritten(lib, m[field]) && Found(lib, m[field]) <= Found(lib, Obj(m))
  {
    ReplacedExactly(lib, m, field);
    DirectInFound(lib, m, field);
    if !Shaped(lib, m, field) {
      assert field in m.Keys - DirectFields(lib, m);
      assert forall f :: f in Found(lib, m[field]) ==> f in FieldsFound(lib, m, m.Keys - DirectFields(lib, m));
    }
  }

  // ----- trees

  datatype Hop = Item(i: nat) | Field(name: string)

  /** What is found in a tree along a path. */
  function At(v: Json, path: seq<Hop>): Option<Json>
    decreases |path|
  {
    if path == [] then Some(v)
    else
      match (v, path[0])
      case (Arr(items), Item(i)) => if i < |items| then At(items[i], path[1..]) else None
      case (Obj(m), Field(name)) => if name in m then At(m[name], path[1..]) else None
      case _ => None
  }

  lemma ShapedIsText(lib: Lib, m: Fields, field: string)
    requires Shaped(lib, m, field)
    ensures field in m && m[field].Str?
  {
  }

  /** However deep in a tree an object or a list is, it is rewritten there as by itself, and
      all its files are found. */
  lemma {:induction false} TakenAnywhere(lib: Lib, v: Json, path: seq<Hop>, w: Json)
    requires At(v, path) == Some(w) && (w.Obj? || w.Arr?)
    ensures At(Rewritten(lib, v), path) == Some(Rewritten(lib, w))
    ensures Found(lib, w) <= Found(lib, v)
    decreases |path|
  {
    if path != [] {
      match (v, path[0])
      case (Arr(items), Item(i)) =>
        TakenAnywhere(lib, items[i], path[1..], w);
        assert Rewritten(lib, v).items[i] == Rewritten(lib, items[i]);
        assert forall f :: f in Found(lib, items[i]) ==> f in Found(lib, v);
      case (Obj(m), Field(name)) =>
        if Shaped(lib, m, name) { ShapedIsText(lib, m, name); }
        TakenAnywhere(lib, m[name], path[1..], w);
        FieldTaken(lib, m, name);
    }
  }

  /** A text in a list is rewritten there too. */
  lemma TextTaken(lib: Lib, items: seq<Json>, i: nat, s: string)
    requires i < |items| && items[i] == Str(s)
    ensures Rewritten(lib, Arr(items)).items[i] == Str(TextRewritten(lib, s))
    ensures In(TextFinds(lib, s)) <= Found(lib, Arr(items))
  {
    assert Found(lib, items[i]) == In(TextFinds(lib, s));
    assert forall f :: f in Found(lib, items[i]) ==> f in Found(lib, Arr(items));
  }

  // ----- texts

  /** The characters of a payload are those of base64, by their code points. */
  lemma AlphabetExactly(c: char)
    ensures PayloadChar(c) <==>
      || 65 <= c as int <= 90 || 97 <= c as int <= 122 || 48 <= c as int <= 57
      || c as int == 43 || c as int == 47 || c as int == 61
  {
  }

  lemma {:induction false} UrlsNameThemselves(lib: Lib, s: string)
    requires lib.Lawful() && Urls(lib).Finds(s) != []
    ensures Contains(s, "data:")
    decreases |s|
  {
    if lib.urlLen(s) > 0 { assert lib.UrlLaw(s, 0); } else { UrlsNameThemselves(lib, s[1..]); }
  }

  /** Looking for two words first makes no difference. */
  lemma GuardHarmless(lib: Lib, s: string)
    requires lib.Lawful()
    ensures TextRewritten(lib, s) == B64Fields(lib).Replaced(Urls(lib).Replaced(s))
    ensures TextFinds(lib, s) == Urls(lib).Finds(s) + B64Fields(lib).Finds(Urls(lib).Replaced(s))
  {
    if !MayHoldFiles(s) {
      if Urls(lib).Finds(s) != [] { UrlsNameThemselves(lib, s); }
      NothingFound(Urls(lib), s);
      if B64Fields(lib).Finds(s) != [] { FieldsNameThemselves(lib, s); }
      NothingFound(B64Fields(lib), s);
    }
  }

  lemma UpTo(sc: Scanner, a: string, s: string)
    requires forall i :: 0 <= i < |a| ==> sc.Len((a + s)[i..]) == 0
    ensures sc.Replaced(a + s) == a + sc.Replaced(s) && sc.Finds(a + s) == sc.Finds(s)
  {
    SkipPlain(sc, a + s, |a|);
    assert (a + s)[..|a|] == a && (a + s)[|a|..] == s;
    forall i | 0 <= i < |a| ensures sc.Len(a[i..] + s) == 0 { assert (a + s)[i..] == a[i..] + s; }
    Walk(sc, a, s);
  }

  /** The first data URL of a text, wherever it is: it becomes its placeholder. */
  lemma UrlTaken(lib: Lib, a: string, url: string, rest: string, told: string, payload: string)
    requires lib.Lawful() && url != "" && lib.urlLen(url + rest) == |url|
    requires forall i :: 0 <= i < |a| ==> lib.urlLen((a + (url + rest))[i..]) == 0
    requires lib.parseUrl(url) == Some((told, payload)) && lib.decode(payload).Some?
    ensures var data := lib.decode(payload).value;
      && Urls(lib).Replaced(a + (url + rest)) == a + ("<file:" + lib.hash(data) + ">" + Urls(lib).Replaced(rest))
      && Urls(lib).Finds(a + (url + rest)) == [File(lib.hash(data), MimeOf(lib, told, data), data)] + Urls(lib).Finds(rest)
  {
    var sc, s := Urls(lib), url + rest;
    UpTo(sc, a, s);
    assert s[..|url|] == url && s[|url|..] == rest;
    assert sc.Hit(s).Some? && sc.Hit(s).value.Text() == Placeholder(lib.hash(lib.decode(payload).value));
  }

  /** The first b64_json field of a text: its payload becomes its placeholder. */
  lemma B64FieldTaken(lib: Lib, a: string, colon: string, payload: string, rest: string)
    requires IsColon(colon) && IsPayload(payload) && lib.decode(payload).Some?
    requires var s := FieldFrom(colon, payload) + rest; forall i :: 0 <= i < |a| ==> FieldSpan((a + s)[i..]).None?
    ensures var data := lib.decode(payload).value;
      && B64Fields(lib).Replaced(a + (FieldFrom(colon, payload) + rest)) ==
           a + ("\"b64_json\"" + colon + "\"" + ("<file:" + lib.hash(data) + ">") + "\"" + B64Fields(lib).Replaced(rest))
      && B64Fields(lib).Finds(a + (FieldFrom(colon, payload) + rest)) ==
           [File(lib.hash(data), MimeOf(lib, "", data), data)] + B64Fields(lib).Finds(rest)
  {
    var sc, m := B64Fields(lib), FieldFrom(colon, payload);
    var s := m + rest;
    UpTo(sc, a, s);
    FieldFromSpan(colon, payload, rest);
    assert s[..|m|] == m && s[|m|..] == rest;
    WholeFieldSwapped(lib, colon, payload);
  }

  lemma WholeFieldSwapped(lib: Lib, colon: string, payload: string)
    requires IsColon(colon) && IsPayload(payload) && lib.decode(payload).Some?
    ensures var swap, data := FieldSwap(lib, FieldFrom(colon, payload)), lib.decode(payload).value;
      swap.Some? && swap.value.file == File(lib.hash(data), MimeOf(lib, "", data), data)
      && swap.value.Text() == "\"b64_json\"" + colon + "\"" + ("<file:" + lib.hash(data) + ">") + "\""
  {
    var m := FieldFrom(colon, payload);
    FieldFromSpan(colon, payload, "");
    assert m + "" == m;
    var a, b := 11 + |colon|, 11 + |colon| + |payload|;
    assert m[..a] == "\"b64_json\"" + colon + "\"" && m[a..b] == payload && m[b..] == "\"";
  }
}
