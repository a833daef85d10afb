/** Files hidden in a text, files.go: the two regular expressions, the placeholder that
    takes a payload's place, and what a left-to-right replacement pass does. */
module FileText {
  import opened Options
  import opened Bytes

  datatype File = File(sha: string, mime: string, data: Bytes)

  predicate HexDigit(c: char) {
    '0' <= c <= '9' || 'a' <= c <= 'f'
  }

  /** Library behaviour: urlLen is the length of the reDataURL match at the start of a text
      (0 without one), parseUrl is parseDataURL (MIME type and payload), decode is
      decodeBase64Payload, hash is SHA-256 in hex, sniff is http.DetectContentType. */
  datatype Lib = Lib(
    urlLen: string -> nat,
    parseUrl: string -> Option<(string, string)>,
    decode: string -> Option<Bytes>,
    hash: Bytes -> string,
    sniff: Bytes -> string,
    trim: string -> string,
    lower: string -> string)
  {
    /** A match looks at nothing past its end, has no <, > or quote in it and starts
        with "data:". */
    ghost predicate UrlLaw(s: string, k: nat) {
      && urlLen(s) <= |s|
      && (urlLen(s) <= k <= |s| ==> urlLen(s[..k]) == urlLen(s))
      && (k < urlLen(s) ==> s[k] !in "<>\"")
      && (urlLen(s) > 0 ==> "data:" <= s)
    }

    /** Digests are hex and do not collide. */
    ghost predicate HashLaw(d: Bytes, e: Bytes) {
      && (forall i :: 0 <= i < |hash(d)| ==> HexDigit(hash(d)[i]))
      && (hash(d) == hash(e) ==> d == e)
    }

    /** A < survives trimming and lowering, and is no base64. */
    ghost predicate MarkLaw(s: string) {
      '<' in s ==> decode(s).None? && '<' in trim(s) && '<' in lower(s)
    }

    /** What is assumed of all this. */
    ghost predicate Lawful() {
      && (forall s, k :: UrlLaw(s, k))
      && (forall d, e :: HashLaw(d, e))
      && (forall s :: MarkLaw(s))
    }
  }

  function Placeholder(sha: string): string {
    "<file:" + sha + ">"
  }

  function FileFromBase64(lib: Lib, payload: string, mime: string): Option<File> {
    match lib.decode(payload)
    case None => None
    case Some(data) =>
      var m := lib.trim(mime);
      Some(File(lib.hash(data), if m == "" then lib.sniff(data) else m, data))
  }

  // ----- the b64_json field in a text

  predicate Space(c: char) {
    c in " \t\n\r\U{0C}"
  }

  predicate PayloadChar(c: char) {
    'A' <= c <= 'Z' || 'a' <= c <= 'z' || '0' <= c <= '9' || c in "+/="
  }

  const FIELD := "\"b64_json\""

  function SkipSpace(s: string, i: nat): (j: nat)
    requires i <= |s|
    ensures i <= j <= |s| && (j < |s| ==> !Space(s[j]))
    ensures forall k :: i <= k < j ==> Space(s[k])
    decreases |s| - i
  {
    if i < |s| && Space(s[i]) then SkipSpace(s, i + 1) else i
  }

  function SkipPayload(s: string, i: nat): (j: nat)
    requires i <= |s|
    ensures i <= j <= |s| && (j < |s| ==> !PayloadChar(s[j]))
    ensures forall k :: i <= k < j ==> PayloadChar(s[k])
    decreases |s| - i
  {
    if i < |s| && PayloadChar(s[i]) then SkipPayload(s, i + 1) else i
  }

  /** The end of "b64_json"\s*:\s*" at the start of s. */
  function PayloadStart(s: string): (r: Option<nat>)
    ensures r.Some? ==> |FIELD| + 2 <= r.value <= |s|
  {
    if !(FIELD <= s) then None else
    var colon := SkipSpace(s, |FIELD|);
    if colon == |s| || s[colon] != ':' then None else
    var quote := SkipSpace(s, colon + 1);
    if quote == |s| || s[quote] != '"' then None else Some(quote + 1)
  }

  /** Where the payload of the reB64JSONField match at the start of s begins and ends. */
  function FieldSpan(s: string): (r: Option<(nat, nat)>)
    ensures r.Some? ==> |FIELD| + 2 <= r.value.0 < r.value.1 < |s|
  {
    match PayloadStart(s)
    case None => None
    case Some(start) =>
      var end := SkipPayload(s, start);
      if end == start || end == |s| || s[end] != '"' then None else Some((start, end))
  }

  function FieldLen(s: string): nat {
    if FieldSpan(s).Some? then FieldSpan(s).value.1 + 1 else 0
  }

  // ----- one pass of ReplaceAllStringFunc

  /** What becomes of a match with a decodable payload: kept + placeholder + tail. */
  datatype Swap = Swap(kept: string, payload: string, tail: string, file: File)
  {
    function Text(): string { kept + Placeholder(file.sha) + tail }
  }

  /** A regular expression, as the length of its match at the start of a text (0 without
      one), with the function that replaces its matches (None leaves a match as it is). */
  datatype Scanner = Scanner(len: string -> nat, swap: string -> Option<Swap>)
  {
    function Len(s: string): (n: nat)
      ensures n <= |s|
    {
      if len(s) <= |s| then len(s) else 0
    }

    /** How far one step of the scan goes: over a match, or one character. */
    function Width(s: string): (d: nat)
      requires s != ""
      ensures 1 <= d <= |s|
    {
      if Len(s) == 0 then 1 else Len(s)
    }

    function Hit(s: string): Option<Swap> {
      if Len(s) == 0 then None else swap(s[..Len(s)])
    }

    function Replaced(s: string): string
      decreases |s|
    {
      if s == "" then ""
      else (if Hit(s).Some? then Hit(s).value.Text() else s[..Width(s)]) + Replaced(s[Width(s)..])
    }

    /** The files a pass takes out of s, in order. */
    function Finds(s: string): seq<File>
      decreases |s|
    {
      if s == "" then []
      else (if Hit(s).Some? then [Hit(s).value.file] else []) + Finds(s[Width(s)..])
    }
  }

  function UrlSwap(lib: Lib, m: string): Option<Swap> {
    match lib.parseUrl(m)
    case None => None
    case Some(parts) =>
      match FileFromBase64(lib, parts.1, parts.0)
      case None => None
      case Some(f) => Some(Swap("", parts.1, "", f))
  }

  function FieldSwap(lib: Lib, m: string): Option<Swap> {
    match FieldSpan(m)
    case None => None
    case Some(span) =>
      match FileFromBase64(lib, m[span.0..span.1], "")
      case None => None
      case Some(f) => Some(Swap(m[..span.0], m[span.0..span.1], m[span.1..], f))
  }

  function Urls(lib: Lib): Scanner {
    Scanner(lib.urlLen, m => UrlSwap(lib, m))
  }

  function B64Fields(lib: Lib): Scanner {
    Scanner(FieldLen, m => FieldSwap(lib, m))
  }

  // ----- rewriteText: both passes

  predicate Contains(s: string, sub: string)
    decreases |s|
  {
    sub <= s || (s != "" && Contains(s[1..], sub))
  }

  predicate MayHoldFiles(s: string) {
    Contains(s, "data:") || Contains(s, "b64_json")
  }

  function TextRewritten(lib: Lib, s: string): string {
    if MayHoldFiles(s) then B64Fields(lib).Replaced(Urls(lib).Replaced(s)) else s
  }

  function TextFinds(lib: Lib, s: string): seq<File> {
    if MayHoldFiles(s) then Urls(lib).Finds(s) + B64Fields(lib).Finds(Urls(lib).Replaced(s)) else []
  }
}
