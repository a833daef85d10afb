/** JSON values and the raw-message accessors of rewrite.go and sse_log.go.

    A json.RawMessage is modelled by the value it spells: an object is a map,
    a number or a boolean is the text of its token. A missing map entry, which
    Go reads as an empty message, is None. */
module Json {
  import opened Options

  type Fields = map<string, Json>

  datatype Json =
    | Null
    | Scalar(text: string)
    | Str(val: string)
    | Arr(items: seq<Json>)
    | Obj(fields: Fields)

  function Get(m: Fields, key: string): Option<Json> {
    if key in m then Some(m[key]) else None
  }

  /** jsonBlank: an empty message or the literal null. */
  predicate Blank(v: Option<Json>) {
    v.None? || v.value.Null?
  }

  /** decodeJSONRawObject: None is its error. */
  function AsObject(v: Option<Json>): Option<Fields> {
    if v.Some? && v.value.Obj? then Some(v.value.fields) else None
  }

  /** unmarshalRawArray: a blank message is the empty array, None is its error. */
  function AsArray(v: Option<Json>): Option<seq<Json>> {
    if Blank(v) then Some([])
    else if v.value.Arr? then Some(v.value.items)
    else None
  }

  /** rawJSONString: a blank message is the empty string, None is its error. */
  function AsString(v: Option<Json>): Option<string> {
    if Blank(v) then Some("")
    else if v.value.Str? then Some(v.value.val)
    else None
  }

  /** rawJSONBool with its error dropped, as every caller does. */
  predicate AsBool(v: Option<Json>) {
    v == Some(Scalar("true"))
  }

  predicate IsString(v: Option<Json>) {
    v.Some? && v.value.Str?
  }

  /** The text a message contributes to a transcript: its value if it is a string. */
  function StrOf(v: Option<Json>): string {
    if IsString(v) then v.value.val else ""
  }

  /** The fields of a message, or no fields if it is not an object. */
  function FieldsOf(v: Option<Json>): Fields {
    AsObject(v).GetOr(map[])
  }

  predicate HasPrefix(s: string, prefix: string) {
    prefix <= s
  }

  predicate HasSuffix(s: string, suffix: string) {
    |suffix| <= |s| && s[|s| - |suffix|..] == suffix
  }
}
