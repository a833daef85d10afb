/** The request rewriting of rewrite.go. */
module Rewrite {
  import opened Options
  import opened Bytes
  import opened Json
  import opened JsonCodec

  datatype Meta = Meta(model: string, stream: bool, body: Bytes)

  datatype RequestError = InvalidJson | ModelNotAString | MissingModel | BadStreamOptions

  function ParsedRequest(cd: Codec, body: Bytes): Result<Meta, RequestError> {
    match cd.decode(body)
    case None => Err(InvalidJson)
    case Some(raw) =>
      match AsString(Get(raw, "model"))
      case None => Err(ModelNotAString)
      case Some(model) =>
        if model == "" then Err(MissingModel) else Ok(Meta(model, AsBool(Get(raw, "stream")), body))
  }

  // ----- what the rewritten object is

  const TRUE := Scalar("true")

  /** stream_options the code can work with. */
  predicate UsableOptions(opts: Option<Json>) {
    Blank(opts) || opts.value.Obj?
  }

  /** ensureIncludeUsage: an existing include_usage is never overwritten. */
  function WithUsage(opts: Option<Json>): Json
    requires UsableOptions(opts)
  {
    if Blank(opts) then Obj(map["include_usage" := TRUE])
    else if "include_usage" in opts.value.fields then opts.value
    else Obj(opts.value.fields["include_usage" := TRUE])
  }

  function RewrittenObject(raw: Fields, upstreamModel: string, inject: bool): Option<Fields> {
    var named := if upstreamModel != "" then raw["model" := Str(upstreamModel)] else raw;
    if !inject then Some(named)
    else if UsableOptions(Get(raw, "stream_options"))
    then Some(named["stream_options" := WithUsage(Get(raw, "stream_options"))])
    else None
  }

  function Rewritten(cd: Codec, body: Bytes, upstreamModel: string, stream: bool, injectStreamUsage: bool)
    : Result<Bytes, RequestError>
  {
    match cd.decode(body)
    case None => Err(InvalidJson)
    case Some(raw) =>
      match RewrittenObject(raw, upstreamModel, stream && injectStreamUsage)
      case None => Err(BadStreamOptions)
      case Some(out) => Ok(cd.encode(out))
  }

  // ----- as written: entries of the decoded map assigned one by one

  method EnsureIncludeUsage(opts: Option<Json>) returns (r: Option<Json>)
    ensures r == if UsableOptions(opts) then Some(WithUsage(opts)) else None
  {
    if Blank(opts) {
      return Some(Obj(map["include_usage" := TRUE]));
    }
    var decoded := AsObject(opts);
    if decoded.None? {
      return None;
    }
    var nested := decoded.value;
    if "include_usage" in nested {
      return opts;
    }
    nested := nested["include_usage" := TRUE];
    r := Some(Obj(nested));
  }

  method RewriteRequest(cd: Codec, body: Bytes, upstreamModel: string, stream: bool, injectStreamUsage: bool)
    returns (r: Result<Bytes, RequestError>)
    ensures r == Rewritten(cd, body, upstreamModel, stream, injectStreamUsage)
  {
    var decoded := cd.decode(body);
    if decoded.None? {
      return Err(InvalidJson);
    }
    var raw := decoded.value;
    if upstreamModel != "" {
      raw := raw["model" := Str(upstreamModel)];
    }
    if stream && injectStreamUsage {
      var opts := EnsureIncludeUsage(Get(raw, "stream_options"));
      if opts.None? {
        return Err(BadStreamOptions);
      }
      raw := raw["stream_options" := opts.value];
    }
    r := Ok(cd.encode(raw));
  }

  // ----- properties

  /** A request is accepted exactly if it is an object with a model that is a string and not
      empty; it streams only if its stream field is true. */
  lemma ParsedExactly(cd: Codec, body: Bytes, meta: Meta)
    ensures ParsedRequest(cd, body) == Ok(meta) <==>
      && meta.body == body && cd.decode(body).Some? && meta.model != ""
      && var raw := cd.decode(body).value;
         Get(raw, "model") == Some(Str(meta.model)) && (meta.stream <==> Get(raw, "stream") == Some(Scalar("true")))
  {
  }

  /** A request that parses is rewritten exactly when its stream_options are blank or an
      object, or nothing is to be injected. */
  lemma RewriteSucceedsExactly(cd: Codec, body: Bytes, upstreamModel: string, stream: bool, inject: bool)
    requires cd.decode(body).Some?
    ensures Rewritten(cd, body, upstreamModel, stream, inject).Ok? <==>
      var opts := Get(cd.decode(body).value, "stream_options");
      !(stream && inject) || opts == None || opts.value.Null? || opts.value.Obj?
  {
  }

  /** A rewritten request parses back with the upstream's model and the same stream flag. */
  lemma RewriteParsesBack(cd: Codec, body: Bytes, upstreamModel: string, inject: bool)
    requires cd.Lawful() && ParsedRequest(cd, body).Ok?
    requires var meta := ParsedRequest(cd, body).value;
      Rewritten(cd, body, upstreamModel, meta.stream, inject).Ok?
    ensures var meta := ParsedRequest(cd, body).value;
      var out := Rewritten(cd, body, upstreamModel, meta.stream, inject).value;
      ParsedRequest(cd, out) == Ok(Meta(if upstreamModel != "" then upstreamModel else meta.model, meta.stream, out))
  {
  }

  /** The options ask for usage, if only where they did not say: what was there is kept. */
  predicate UsageAsked(out: Fields, raw: Fields) {
    && "stream_options" in out && out["stream_options"].Obj?
    && var opts, prior := out["stream_options"].fields, FieldsOf(Get(raw, "stream_options"));
       && opts.Keys == prior.Keys + {"include_usage"}
       && (forall k :: k in prior ==> opts[k] == prior[k])
       && ("include_usage" !in prior ==> opts["include_usage"] == Scalar("true"))
  }

  /** out is the request raw as an upstream is to get it: with its own model, if it has one,
      and asked for usage, if it is; nothing else changes. */
  ghost predicate SentAs(out: Fields, raw: Fields, model: string, askUsage: bool) {
    && Get(out, "model") == (if model != "" then Some(Str(model)) else Get(raw, "model"))
    && (forall k :: k != "model" && k != "stream_options" ==> Get(out, k) == Get(raw, k))
    && (if askUsage then UsageAsked(out, raw) else Get(out, "stream_options") == Get(raw, "stream_options"))
  }

  /** Nothing else changes: no other key, and no include_usage that was there. */
  lemma RewriteKeepsTheRest(cd: Codec, body: Bytes, upstreamModel: string, stream: bool, inject: bool)
    requires cd.Lawful() && Rewritten(cd, body, upstreamModel, stream, inject).Ok?
    ensures cd.decode(body).Some?
    ensures var out := cd.decode(Rewritten(cd, body, upstreamModel, stream, inject).value);
      out.Some? && SentAs(out.value, cd.decode(body).value, upstreamModel, stream && inject)
  {
  }

  /** Rewriting a rewritten request for the same provider gives the same bytes. */
  lemma RewriteIdempotent(cd: Codec, body: Bytes, upstreamModel: string, stream: bool, inject: bool)
    requires cd.Lawful() && Rewritten(cd, body, upstreamModel, stream, inject).Ok?
    ensures Rewritten(cd, Rewritten(cd, body, upstreamModel, stream, inject).value, upstreamModel, stream, inject)
         == Rewritten(cd, body, upstreamModel, stream, inject)
  {
    var raw := cd.decode(body).value;
    var out := RewrittenObject(raw, upstreamModel, stream && inject).value;
    if upstreamModel != "" { assert out["model" := Str(upstreamModel)] == out; }
    if stream && inject {
      assert WithUsage(Get(out, "stream_options")) == out["stream_options"];
      assert out["stream_options" := out["stream_options"]] == out;
    }
    assert RewrittenObject(out, upstreamModel, stream && inject) == Some(out);
  }
}
