/** File extraction of files.go: base64 payloads in a JSON tree become placeholders, the
    decoded bytes become file entries. Found and Rewritten say what an extraction takes out
    of a tree and what it leaves; class Extraction is the code, with its shared list and
    seen-set. */
module Files {
  import opened Sequences
  import opened Options
  import opened Json
  import opened FileText
  import opened FileTextTheorems

  // ----- objects: four rules, by the field they rewrite

  /** audioFormats. */
  const AUDIO_FORMATS: map<string, string> :=
    map["wav" := "audio/wav", "mp3" := "audio/mpeg", "mpeg" := "audio/mpeg", "pcm16" := "audio/pcm",
        "ogg" := "audio/ogg", "flac" := "audio/flac", "webm" := "audio/webm"]

  /** systemOneImageFormats. */
  const SYSTEM_ONE_FORMATS: map<string, string> :=
    map["png" := "image/png", "jpg" := "image/jpeg", "jpeg" := "image/jpeg"]

  function Lookup(formats: map<string, string>, format: string): string {
    if format in formats then formats[format] else ""
  }

  function Text(obj: Fields, field: string): string {
    AsString(Get(obj, field)).GetOr("")
  }

  /** systemOneAssetMime. */
  function SystemOneMime(lib: Lib, obj: Fields): string {
    var format := lib.lower(lib.trim(Text(obj, "format")));
    if Text(obj, "type") != "" && Text(obj, "type") != "image" then "" else Lookup(SYSTEM_ONE_FORMATS, format)
  }

  /** The file in a string field, if its text decodes. */
  function PayloadFile(lib: Lib, obj: Fields, field: string, mime: string): Option<File> {
    if Text(obj, field) == "" then None else FileFromBase64(lib, Text(obj, field), mime)
  }

  function Base64Source(lib: Lib, obj: Fields): Option<File> {
    if Text(obj, "type") != "base64" then None else PayloadFile(lib, obj, "data", Text(obj, "media_type"))
  }

  function InputAudio(lib: Lib, obj: Fields): Option<File> {
    var mime := Lookup(AUDIO_FORMATS, lib.lower(Text(obj, "format")));
    if mime == "" || HasPrefix(Text(obj, "data"), "data:") then None else PayloadFile(lib, obj, "data", mime)
  }

  function SystemOneAsset(lib: Lib, obj: Fields): Option<File> {
    var mime := SystemOneMime(lib, obj);
    if mime == "" then None else PayloadFile(lib, obj, "data_base64", mime)
  }

  /** The file a field of an object is replaced by as a whole. */
  function Direct(lib: Lib, obj: Fields, field: string): Option<File> {
    if field == "data" then
      if Base64Source(lib, obj).Some? then Base64Source(lib, obj) else InputAudio(lib, obj)
    else if field == "b64_json" then PayloadFile(lib, obj, "b64_json", "")
    else if field == "data_base64" then SystemOneAsset(lib, obj)
    else None
  }

  lemma DirectIsPayload(lib: Lib, obj: Fields, field: string)
    requires Direct(lib, obj, field).Some?
    ensures field in obj && obj[field].Str?
    ensures lib.decode(obj[field].val) == Some(Direct(lib, obj, field).value.data)
    ensures Direct(lib, obj, field).value.sha == lib.hash(Direct(lib, obj, field).value.data)
  {
  }

  // ----- trees

  function PlaceholderOf(f: File): Json {
    Str(Placeholder(f.sha))
  }

  function Rewritten(lib: Lib, v: Json): Json
    decreases v
  {
    match v
    case Str(s) => Str(TextRewritten(lib, s))
    case Arr(items) => Arr(seq(|items|, i requires 0 <= i < |items| => Rewritten(lib, items[i])))
    case Obj(m) =>
      Obj(map k | k in m ::
        if Direct(lib, m, k).Some? then PlaceholderOf(Direct(lib, m, k).value) else Rewritten(lib, m[k]))
    case _ => v
  }

  ghost function In(fs: seq<File>): iset<File> {
    iset f | f in fs
  }

  function One(f: Option<File>): seq<File> {
    if f.Some? then [f.value] else []
  }

  function DirectList(lib: Lib, m: Fields): seq<File> {
    One(Direct(lib, m, "data")) + One(Direct(lib, m, "b64_json")) + One(Direct(lib, m, "data_base64"))
  }

  function DirectFields(lib: Lib, m: Fields): set<string> {
    set k | k in m && Direct(lib, m, k).Some?
  }

  /** The files in a tree. */
  ghost function Found(lib: Lib, v: Json): iset<File>
    decreases v, 1
  {
    match v
    case Str(s) => In(TextFinds(lib, s))
    case Arr(items) => ItemsFound(lib, items, |items|)
    case Obj(m) => In(DirectList(lib, m)) + FieldsFound(lib, m, m.Keys - DirectFields(lib, m))
    case _ => iset{}
  }

  ghost function ItemsFound(lib: Lib, items: seq<Json>, n: nat): iset<File>
    requires n <= |items|
    decreases Arr(items), 0
  {
    iset i, f | 0 <= i < n && f in Found(lib, items[i]) :: f
  }

  ghost function FieldsFound(lib: Lib, m: Fields, ks: set<string>): iset<File>
    requires ks <= m.Keys
    decreases Obj(m), 0
  {
    iset k, f | k in ks && f in Found(lib, m[k]) :: f
  }

  // ----- the list of files

  function Shas(fs: seq<File>): set<string> {
    set f | f in fs :: f.sha
  }

  function WithFirst(list: seq<File>, f: File): seq<File> {
    if f.sha in Shas(list) then list else list + [f]
  }

  /** The first file with each digest, in order. */
  function FirstOfEach(fs: seq<File>): seq<File> {
    if fs == [] then [] else WithFirst(FirstOfEach(fs[..|fs| - 1]), fs[|fs| - 1])
  }

  /** extractFiles with the list and the set it hands down. taken: every file it came upon. */
  class Extraction {
    const lib: Lib
    var files: seq<File>
    var seen: set<string>
    ghost var taken: seq<File>

    ghost predicate Valid()
      reads this
    {
      files == FirstOfEach(taken) && seen == Shas(files)
    }

    constructor (lib: Lib)
      ensures this.lib == lib && taken == [] && Valid()
    {
      this.lib, files, seen, taken := lib, [], {}, [];
    }

    /** addExtracted. */
    method Add(f: File)
      requires Valid()
      modifies this
      ensures Valid() && taken == old(taken) + [f]
    {
      taken := taken + [f];
      if f.sha in seen {
        return;
      }
      seen := seen + {f.sha};
      files := files + [f];
    }

    /** One ReplaceAllStringFunc of rewriteText, from the first character to the last. */
    method Replace(sc: Scanner, s: string) returns (out: string, changed: bool)
      requires Valid()
      modifies this
      ensures Valid() && taken == old(taken) + sc.Finds(s)
      ensures out == sc.Replaced(s) && (changed <==> sc.Finds(s) != [])
    {
      out, changed := "", false;
      var left := s;
      ghost var found: seq<File> := [];
      while left != ""
        invariant Valid() && taken == old(taken) + found
        invariant out + sc.Replaced(left) == sc.Replaced(s)
        invariant found + sc.Finds(left) == sc.Finds(s)
        invariant changed <==> found != []
        decreases |left|
      {
        var hit := sc.Hit(left);
        ScanOn(sc, old(taken), found, out, left);
        if hit.Some? {
          Add(hit.value.file);
          found := found + [hit.value.file];
          out, changed := out + hit.value.Text(), true;
        } else {
          out := out + left[..sc.Width(left)];
        }
        left := left[sc.Width(left)..];
      }
      assert found + [] == found;
    }

    method RewriteText(s: string) returns (out: string, changed: bool)
      requires Valid()
      modifies this
      ensures Valid() && taken == old(taken) + TextFinds(lib, s)
      ensures out == TextRewritten(lib, s) && (changed <==> TextFinds(lib, s) != [])
    {
      if !Contains(s, "data:") && !Contains(s, "b64_json") {
        return s, false;
      }
      var mid, urls := Replace(Urls(lib), s);
      var end, fields := Replace(B64Fields(lib), mid);
      TakeMore(old(taken), Urls(lib).Finds(s), B64Fields(lib).Finds(mid));
      return end, urls || fields;
    }

    method RewriteJson(v: Json) returns (out: Json, changed: bool, ghost got: seq<File>)
      requires lib.Lawful() && Valid()
      modifies this
      ensures Valid() && taken == old(taken) + got && In(got) == Found(lib, v)
      ensures out == Rewritten(lib, v) && (changed <==> got != []) && (changed || out == v)
      decreases v, 3
    {
      NothingInTreeAtAll(lib, v);
      match v
      case Str(s) =>
        var ns, c := RewriteText(s);
        out, changed, got := Str(ns), c, TextFinds(lib, s);
      case Arr(items) =>
        out, changed, got := RewriteArray(items);
      case Obj(m) =>
        out, changed, got := RewriteObject(m);
      case _ =>
        out, changed, got := v, false, [];
    }

    method RewriteArray(items: seq<Json>) returns (out: Json, changed: bool, ghost got: seq<File>)
      requires lib.Lawful() && Valid()
      modifies this
      ensures Valid() && taken == old(taken) + got && In(got) == Found(lib, Arr(items))
      ensures out == Rewritten(lib, Arr(items)) && (changed <==> got != [])
      decreases Arr(items), 1
    {
      var arr := items;
      changed, got := false, [];
      for i := 0 to |items|
        invariant Valid() && taken == old(taken) + got
        invariant |arr| == |items|
        invariant forall j :: 0 <= j < i ==> arr[j] == Rewritten(lib, items[j])
        invariant forall j :: i <= j < |items| ==> arr[j] == items[j]
        invariant In(got) == ItemsFound(lib, items, i)
        invariant changed <==> got != []
      {
        ghost var more;
        var nv, c;
        nv, c, more := RewriteJson(arr[i]);
        TakeMore(old(taken), got, more);
        ItemsFoundNext(lib, items, i);
        got := got + more;
        if c {
          arr, changed := arr[i := nv], true;
        }
      }
      out := Arr(arr);
    }

    /** One of the four rules: the field becomes the placeholder of its file. */
    method ReplaceField(obj: Fields, skip: set<string>, field: string, f: Option<File>)
      returns (nobj: Fields, nskip: set<string>)
      requires Valid()
      modifies this
      ensures Valid() && taken == old(taken) + One(f)
      ensures nobj == Put(obj, field, f)
      ensures nskip == skip + Named(field, f)
    {
      if f.None? {
        return obj, skip;
      }
      Add(f.value);
      return obj[field := PlaceholderOf(f.value)], skip + {field};
    }

    /** The four rules in the order of the source, each reading the object as the rules
        before it left it. */
    method ReplaceDirect(m: Fields) returns (obj: Fields, skip: set<string>, ghost got: seq<File>)
      requires lib.Lawful() && Valid()
      modifies this
      ensures Valid() && taken == old(taken) + got && In(got) == In(DirectList(lib, m))
      ensures skip == DirectFields(lib, m) && obj == DirectReplaced(lib, m)
      ensures skip != {} <==> got != []
    {
      var source := Base64Source(lib, m);
      var o1, s1 := ReplaceField(m, {}, "data", source);
      var image := PayloadFile(lib, o1, "b64_json", "");
      var o2, s2 := ReplaceField(o1, s1, "b64_json", image);
      var audio := InputAudio(lib, o2);
      var o3, s3 := ReplaceField(o2, s2, "data", audio);
      var asset := SystemOneAsset(lib, o3);
      obj, skip := ReplaceField(o3, s3, "data_base64", asset);
      got := One(source) + One(image) + One(audio) + One(asset);
      RulesTogether(lib, m, source, image, audio, asset);
      AnyNamed(source, image, audio, asset);
      TakeFour(old(taken), One(source), One(image), One(audio), One(asset));
    }

    method RewriteObject(m: Fields) returns (out: Json, changed: bool, ghost got: seq<File>)
      requires lib.Lawful() && Valid()
      modifies this
      ensures Valid() && taken == old(taken) + got && In(got) == Found(lib, Obj(m))
      ensures out == Rewritten(lib, Obj(m)) && (changed <==> got != [])
      decreases Obj(m), 2
    {
      var obj, skip, walked;
      ghost var more;
      obj, skip, got := ReplaceDirect(m);
      obj, walked, more := WalkFields(m, obj, skip);
      changed := skip != {} || walked;
      TakeMore(old(taken), got, more);
      got := got + more;
      out := Obj(obj);
      FieldsRewritten(lib, m, obj);
    }

    /** One turn of the loop over the fields. */
    method WalkField(m: Fields, replaced: Fields, skip: set<string>, obj: Fields, todo: set<string>, k: string)
      returns (nobj: Fields, changed: bool, ghost got: seq<File>)
      requires lib.Lawful() && Valid()
      requires k in todo && MidWalk(lib, m, replaced, skip, todo, obj)
      modifies this
      ensures Valid() && taken == old(taken) + got
      ensures FieldsFound(lib, m, m.Keys - (todo - {k}) - skip) == FieldsFound(lib, m, m.Keys - todo - skip) + In(got)
      ensures MidWalk(lib, m, replaced, skip, todo - {k}, nobj) && (changed <==> got != [])
      decreases Obj(m), 0
    {
      nobj, changed, got := obj, false, [];
      OneLess(m.Keys, todo, skip, k);
      if k in skip {
        return;
      }
      FieldsFoundNext(lib, m, m.Keys - todo - skip, k);
      var nv;
      nv, changed, got := RewriteJson(obj[k]);
      if changed {
        nobj := nobj[k := nv];
      }
    }

    /** The loop over the fields no rule has replaced, in any order. */
    method WalkFields(m: Fields, replaced: Fields, skip: set<string>)
      returns (obj: Fields, changed: bool, ghost got: seq<File>)
      requires lib.Lawful() && Valid()
      requires m.Keys == replaced.Keys && forall k :: k in m && k !in skip ==> replaced[k] == m[k]
      modifies this
      ensures Valid() && taken == old(taken) + got && In(got) == FieldsFound(lib, m, m.Keys - skip)
      ensures obj.Keys == m.Keys
      ensures forall k :: k in m ==> obj[k] == if k in skip then replaced[k] else Rewritten(lib, m[k])
      ensures changed <==> got != []
      decreases Obj(m), 1
    {
      obj, changed, got := replaced, false, [];
      var todo := obj.Keys;
      while todo != {}
        invariant Valid() && taken == old(taken) + got
        invariant MidWalk(lib, m, replaced, skip, todo, obj)
        invariant In(got) == FieldsFound(lib, m, m.Keys - todo - skip)
        invariant changed <==> got != []
        decreases |todo|
      {
        var k :| k in todo;
        ghost var more;
        var c;
        obj, c, more := WalkField(m, replaced, skip, obj, todo, k);
        TakeMore(old(taken), got, more);
        todo, changed, got := todo - {k}, changed || c, got + more;
      }
      assert m.Keys - todo - skip == m.Keys - skip;
    }
  }

  // ----- steps of these loops

  lemma ScanOn(sc: Scanner, taken: seq<File>, found: seq<File>, out: string, left: string)
    requires left != ""
    ensures var rest, hit := left[sc.Width(left)..], sc.Hit(left);
      if hit.Some? then
        && out + sc.Replaced(left) == out + hit.value.Text() + sc.Replaced(rest)
        && found + sc.Finds(left) == found + [hit.value.file] + sc.Finds(rest)
        && taken + found + [hit.value.file] == taken + (found + [hit.value.file])
      else
        && out + sc.Replaced(left) == out + left[..sc.Width(left)] + sc.Replaced(rest)
        && sc.Finds(left) == sc.Finds(rest)
  {
    var rest, hit := left[sc.Width(left)..], sc.Hit(left);
    if hit.Some? {
      Assoc(out, hit.value.Text(), sc.Replaced(rest));
      TakeMore(found, [hit.value.file], sc.Finds(rest));
      TakeMore(taken, found, [hit.value.file]);
    } else {
      Assoc(out, left[..sc.Width(left)], sc.Replaced(rest));
    }
  }

  lemma NoneIn(fs: seq<File>)
    ensures In(fs) == iset{} <==> fs == []
  {
    if fs != [] { assert fs[0] in In(fs); }
  }

  lemma TakeMore(taken: seq<File>, got: seq<File>, more: seq<File>)
    ensures taken + got + more == taken + (got + more)
    ensures In(got + more) == In(got) + In(more)
  {
  }

  lemma ItemsFoundNext(lib: Lib, items: seq<Json>, n: nat)
    requires n < |items|
    ensures ItemsFound(lib, items, n + 1) == ItemsFound(lib, items, n) + Found(lib, items[n])
  {
    forall f ensures f in ItemsFound(lib, items, n + 1) <==> f in ItemsFound(lib, items, n) || f in Found(lib, items[n]) {
    }
  }

  lemma OneLess(all: set<string>, todo: set<string>, skip: set<string>, k: string)
    requires k in todo && todo <= all
    ensures all - (todo - {k}) - skip == (all - todo - skip) + if k in skip then {} else {k}
  {
  }

  /** An object on its walk, the fields todo not yet visited. */
  predicate MidWalk(lib: Lib, m: Fields, replaced: Fields, skip: set<string>, todo: set<string>, obj: Fields) {
    && todo <= m.Keys == replaced.Keys == obj.Keys
    && (forall k :: k in m && k !in skip ==> replaced[k] == m[k])
    && (forall k :: k in m ==> obj[k] == if k in skip || k in todo then replaced[k] else Rewritten(lib, m[k]))
  }

  lemma FieldsFoundNext(lib: Lib, m: Fields, done: set<string>, k: string)
    requires done <= m.Keys && k in m
    ensures FieldsFound(lib, m, done + {k}) == FieldsFound(lib, m, done) + Found(lib, m[k])
  {
  }

  lemma FieldsRewritten(lib: Lib, m: Fields, obj: Fields)
    requires obj.Keys == m.Keys
    requires forall k :: k in m ==>
      obj[k] == if k in DirectFields(lib, m) then DirectReplaced(lib, m)[k] else Rewritten(lib, m[k])
    ensures Obj(obj) == Rewritten(lib, Obj(m))
  {
    assert obj == Rewritten(lib, Obj(m)).fields;
  }

  function DirectReplaced(lib: Lib, m: Fields): Fields {
    map k | k in m :: if Direct(lib, m, k).Some? then PlaceholderOf(Direct(lib, m, k).value) else m[k]
  }

  function Put(obj: Fields, field: string, f: Option<File>): Fields {
    if f.Some? then obj[field := PlaceholderOf(f.value)] else obj
  }

  lemma PlaceholderNotDecoded(lib: Lib, sha: string)
    requires lib.Lawful()
    ensures lib.decode(Placeholder(sha)).None?
  {
    assert lib.MarkLaw(Placeholder(sha)) && Placeholder(sha)[0] == '<';
  }

  lemma PutElsewhere(obj: Fields, field: string, f: Option<File>, other: string)
    requires other != field
    ensures Text(Put(obj, field, f), other) == Text(obj, other)
  {
  }

  lemma ImageRule(lib: Lib, m: Fields, source: Option<File>)
    ensures PayloadFile(lib, Put(m, "data", source), "b64_json", "") == Direct(lib, m, "b64_json")
  {
    PutElsewhere(m, "data", source, "b64_json");
  }

  lemma AudioRule(lib: Lib, m: Fields, source: Option<File>, image: Option<File>)
    requires lib.Lawful() && source == Base64Source(lib, m)
    ensures InputAudio(lib, Put(Put(m, "data", source), "b64_json", image)) ==
      if source.Some? then None else InputAudio(lib, m)
  {
    var o2 := Put(Put(m, "data", source), "b64_json", image);
    PutElsewhere(Put(m, "data", source), "b64_json", image, "data");
    PutElsewhere(Put(m, "data", source), "b64_json", image, "format");
    PutElsewhere(m, "data", source, "format");
    if source.Some? { PlaceholderNotDecoded(lib, source.value.sha); }
  }

  lemma AssetRule(lib: Lib, m: Fields, source: Option<File>, image: Option<File>, audio: Option<File>)
    ensures SystemOneAsset(lib, Put(Put(Put(m, "data", source), "b64_json", image), "data", audio)) ==
      Direct(lib, m, "data_base64")
  {
    var o1, o2 := Put(m, "data", source), Put(Put(m, "data", source), "b64_json", image);
    PutElsewhere3(m, source, image, audio, "format");
    PutElsewhere3(m, source, image, audio, "type");
    PutElsewhere3(m, source, image, audio, "data_base64");
  }

  lemma PutElsewhere3(m: Fields, source: Option<File>, image: Option<File>, audio: Option<File>, other: string)
    requires other != "data" && other != "b64_json"
    ensures Text(Put(Put(Put(m, "data", source), "b64_json", image), "data", audio), other) == Text(m, other)
  {
    PutElsewhere(Put(Put(m, "data", source), "b64_json", image), "data", audio, other);
    PutElsewhere(Put(m, "data", source), "b64_json", image, other);
    PutElsewhere(m, "data", source, other);
  }

  /** Each rule finds what it would have found in the object as it came, except that a
      payload already replaced is no payload any more. */
  lemma RulesTogether(lib: Lib, m: Fields, source: Option<File>, image: Option<File>, audio: Option<File>, asset: Option<File>)
    requires lib.Lawful()
    requires source == Base64Source(lib, m)
    requires image == PayloadFile(lib, Put(m, "data", source), "b64_json", "")
    requires audio == InputAudio(lib, Put(Put(m, "data", source), "b64_json", image))
    requires asset == SystemOneAsset(lib, Put(Put(Put(m, "data", source), "b64_json", image), "data", audio))
    ensures AllPut(m, source, image, audio, asset) == DirectReplaced(lib, m)
    ensures AllNamed(source, image, audio, asset) == DirectFields(lib, m)
    ensures In(One(source) + One(image) + One(audio) + One(asset)) == In(DirectList(lib, m))
  {
    ImageRule(lib, m, source);
    AudioRule(lib, m, source, image);
    AssetRule(lib, m, source, image, audio);
    var data := Direct(lib, m, "data");
    assert data == if source.Some? then source else audio;
    SameFour(source, audio, image, asset);
    PutDataOnce(m, source, image, audio);
    PutAll(lib, m, data, image, asset);
    NamedAll(lib, m, data, image, asset);
  }

  function AllPut(m: Fields, source: Option<File>, image: Option<File>, audio: Option<File>, asset: Option<File>): Fields {
    Put(Put(Put(Put(m, "data", source), "b64_json", image), "data", audio), "data_base64", asset)
  }

  function AllNamed(source: Option<File>, image: Option<File>, audio: Option<File>, asset: Option<File>): set<string> {
    Named("data", source) + Named("b64_json", image) + Named("data", audio) + Named("data_base64", asset)
  }

  lemma PutDataOnce(m: Fields, source: Option<File>, image: Option<File>, audio: Option<File>)
    requires source.Some? ==> audio.None?
    ensures Put(Put(Put(m, "data", source), "b64_json", image), "data", audio) ==
      Put(Put(m, "data", if source.Some? then source else audio), "b64_json", image)
  {
  }

  lemma PutAll(lib: Lib, m: Fields, data: Option<File>, image: Option<File>, asset: Option<File>)
    requires data == Direct(lib, m, "data") && image == Direct(lib, m, "b64_json") && asset == Direct(lib, m, "data_base64")
    ensures Put(Put(Put(m, "data", data), "b64_json", image), "data_base64", asset) == DirectReplaced(lib, m)
  {
    DirectPresent(lib, m, "data");
    DirectPresent(lib, m, "b64_json");
    DirectPresent(lib, m, "data_base64");
    var out := Put(Put(Put(m, "data", data), "b64_json", image), "data_base64", asset);
    assert out.Keys == m.Keys;
    forall k | k in m ensures out[k] == DirectReplaced(lib, m)[k] {
      DirectPresent(lib, m, k);
    }
  }

  lemma DirectPresent(lib: Lib, m: Fields, k: string)
    ensures Direct(lib, m, k).Some? ==> k in m
    ensures k !in {"data", "b64_json", "data_base64"} ==> Direct(lib, m, k).None?
  {
    if Direct(lib, m, k).Some? { DirectIsPayload(lib, m, k); }
  }

  lemma NamedAll(lib: Lib, m: Fields, data: Option<File>, image: Option<File>, asset: Option<File>)
    requires data == Direct(lib, m, "data") && image == Direct(lib, m, "b64_json") && asset == Direct(lib, m, "data_base64")
    ensures DirectFields(lib, m) == Named("data", data) + Named("b64_json", image) + Named("data_base64", asset)
  {
    forall k ensures Direct(lib, m, k).Some? ==> k in m && k in {"data", "b64_json", "data_base64"} {
      DirectPresent(lib, m, k);
    }
  }

  lemma SameFour(source: Option<File>, audio: Option<File>, image: Option<File>, asset: Option<File>)
    requires source.Some? ==> audio.None?
    ensures In(One(source) + One(image) + One(audio) + One(asset)) ==
      In(One(if source.Some? then source else audio) + One(image) + One(asset))
    ensures AllNamed(source, image, audio, asset) ==
      Named("data", if source.Some? then source else audio) + Named("b64_json", image) + Named("data_base64", asset)
  {
  }

  lemma AnyNamed(a: Option<File>, b: Option<File>, c: Option<File>, d: Option<File>)
    ensures AllNamed(a, b, c, d) != {} <==> One(a) + One(b) + One(c) + One(d) != []
    ensures AllNamed(a, b, c, d) == {} + Named("data", a) + Named("b64_json", b) + Named("data", c) + Named("data_base64", d)
  {
    var names := AllNamed(a, b, c, d);
    assert "data" in names <==> a.Some? || c.Some?;
    assert "b64_json" in names <==> b.Some?;
    assert "data_base64" in names <==> d.Some?;
    assert |One(a) + One(b) + One(c) + One(d)| == |One(a)| + |One(b)| + |One(c)| + |One(d)|;
  }

  function Named(field: string, f: Option<File>): set<string> {
    if f.Some? then {field} else {}
  }

  lemma TakeFour(t: seq<File>, a: seq<File>, b: seq<File>, c: seq<File>, d: seq<File>)
    ensures t + a + b + c + d == t + (a + b + c + d)
  {
    TakeMore(t, a, b);
    TakeMore(t, a + b, c);
    TakeMore(t, a + b + c, d);
  }

  lemma DirectInFound(lib: Lib, m: Fields, k: string)
    requires k in m
    ensures Direct(lib, m, k).Some? ==> Direct(lib, m, k).value in Found(lib, Obj(m))
  {
    if Direct(lib, m, k).Some? { assert Direct(lib, m, k).value in DirectList(lib, m); }
  }

  lemma NothingInTreeAtAll(lib: Lib, v: Json)
    requires lib.Lawful()
    ensures In([]) == Found(lib, v) ==> Rewritten(lib, v) == v
  {
    if Found(lib, v) == iset{} { NothingInTree(lib, v); }
  }

  lemma {:induction false} NothingInTree(lib: Lib, v: Json)
    requires lib.Lawful() && Found(lib, v) == iset{}
    ensures Rewritten(lib, v) == v
    decreases v
  {
    match v
    case Str(s) =>
      TextChanged(lib, s);
      NoneIn(TextFinds(lib, s));
    case Arr(items) =>
      forall i | 0 <= i < |items| ensures Rewritten(lib, items[i]) == items[i] {
        assert forall f :: f in Found(lib, items[i]) ==> f in Found(lib, v);
        NothingInTree(lib, items[i]);
      }
      assert Rewritten(lib, v).items == items;
    case Obj(m) =>
      forall k | k in m ensures Direct(lib, m, k).None? && Rewritten(lib, m[k]) == m[k] {
        DirectInFound(lib, m, k);
        assert forall f :: f in Found(lib, m[k]) ==> f in Found(lib, v);
        NothingInTree(lib, m[k]);
      }
      assert Rewritten(lib, v).fields == m;
    case _ =>
  }
}
