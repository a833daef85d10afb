/** extractFiles and its use in Record: the bodies stored and the files stored beside them. */
module RecordedFiles {
  import opened Options
  import opened Bytes
  import opened Json
  import opened FileText
  import opened Files
  import opened FileLists
  import opened FileTheorems

  /** A body: its length, and its JSON value if it is JSON. */
  datatype Body = Body(size: nat, json: Option<Json>)

  /** retainableBlob. */
  predicate Retainable(b: Body) {
    Storable(b.size)
  }

  ghost function FoundIn(lib: Lib, json: Option<Json>): iset<File> {
    if json.Some? then Found(lib, json.value) else iset{}
  }

  function RewrittenIn(lib: Lib, json: Option<Json>): Option<Json> {
    if json.Some? then Some(Rewritten(lib, json.value)) else None
  }

  /** The files account for the placeholders of the body that was made of json. */
  ghost predicate Accounted(lib: Lib, files: seq<File>, json: Option<Json>, out: Option<Json>) {
    json.Some? ==> out.Some? && Sound(lib, files, json.value, out.value)
  }

  lemma FoundInGenuine(lib: Lib, json: Option<Json>)
    ensures Genuine(lib, FoundIn(lib, json))
  {
    if json.Some? { AllFoundGenuine(lib, json.value); }
  }

  lemma AccountedAmong(lib: Lib, json: Option<Json>, got: seq<File>)
    requires lib.Lawful() && FoundIn(lib, json) <= In(got) && Genuine(lib, In(got))
    ensures Accounted(lib, FirstOfEach(got), json, RewrittenIn(lib, json))
  {
    if json.Some? { SoundAmong(lib, json.value, got); }
  }

  /** got: the files come upon, in the order they were. */
  method ExtractFiles(lib: Lib, json: Option<Json>)
    returns (out: Option<Json>, files: seq<File>, ghost got: seq<File>)
    requires lib.Lawful()
    ensures out == RewrittenIn(lib, json)
    ensures files == FirstOfEach(got) && In(got) == FoundIn(lib, json)
    ensures Accounted(lib, files, json, out)
  {
    if json.None? {
      return json, [], [];
    }
    var ex := new Extraction(lib);
    var nv, changed;
    nv, changed, got := ex.RewriteJson(json.value);
    assert [] + got == got;
    ExtractionSound(lib, json.value, got);
    if !changed {
      return json, [], got;
    }
    return Some(nv), ex.files, got;
  }

  /** What Record makes of its two bodies before it clips them, and the files it hands to
      storeFiles. With retention off neither body is stored. */
  method RecordFiles(lib: Lib, retain: int, req: Body, resp: Body)
    returns (nreq: Option<Json>, nresp: Option<Json>, files: seq<File>, ghost got: seq<File>)
    requires lib.Lawful()
    ensures var inReq, inResp := retain > 0 && Retainable(req), retain > 0 && Retainable(resp);
      && nreq == (if inReq then RewrittenIn(lib, req.json) else req.json)
      && nresp == (if inResp then RewrittenIn(lib, resp.json) else resp.json)
      && In(got) == (if inReq then FoundIn(lib, req.json) else iset{}) + if inResp then FoundIn(lib, resp.json) else iset{}
    ensures files == FirstOfEach(got) && DigestsDiffer(files)
    ensures retain > 0 && Retainable(req) ==> Accounted(lib, files, req.json, nreq)
    ensures retain > 0 && Retainable(resp) ==> Accounted(lib, files, resp.json, nresp)
  {
    nreq, nresp, files, got := req.json, resp.json, [], [];
    if retain > 0 {
      var reqFiles: seq<File>, respFiles: seq<File> := [], [];
      ghost var gotReq: seq<File>, gotResp: seq<File> := [], [];
      if Retainable(req) {
        nreq, reqFiles, gotReq := ExtractFiles(lib, req.json);
      }
      if Retainable(resp) {
        nresp, respFiles, gotResp := ExtractFiles(lib, resp.json);
      }
      files := MergeExtracted(reqFiles, respFiles);
      FirstOfEachDistinct(gotReq);
      FirstOfEachDistinct(gotResp);
      MergedIsFirstOfEach(reqFiles, respFiles);
      FirstOfEachBoth(gotReq, gotResp);
      got := gotReq + gotResp;
      if Retainable(req) { FoundInGenuine(lib, req.json); }
      if Retainable(resp) { FoundInGenuine(lib, resp.json); }
      if Retainable(req) { AccountedAmong(lib, req.json, got); }
      if Retainable(resp) { AccountedAmong(lib, resp.json, got); }
    }
    FirstOfEachDistinct(got);
  }
}
