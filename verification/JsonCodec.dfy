/** JSON text, seen from outside: package encoding/json behind rewrite.go's
    decodeJSONRawObject and encodeJSONValue. */
module JsonCodec {
  import opened Options
  import opened Bytes
  import opened Json

  const TAB: byte := 9
  const LETTER_D: byte := 100

  /** JSON's white space. */
  predicate JsonSpace(x: Bytes) {
    forall i :: 0 <= i < |x| ==> x[i] == SPACE || x[i] == TAB || x[i] == LF || x[i] == CR
  }

  datatype Codec = Codec(decode: Bytes -> Option<Fields>, encode: Fields -> Bytes)
  {
    /** What is assumed of it: encoding loses nothing and is one line. */
    ghost predicate Lawful() {
      forall m :: decode(encode(m)) == Some(m) && OneLine(encode(m))
    }

    /** White space is no value, nor is what starts with a d; before a value it is skipped. */
    ghost predicate SpaceLaw(x: Bytes, y: Bytes) {
      JsonSpace(x) ==>
        decode(x).None? && decode(x + [LF] + y) == decode(y) && decode(x + [LETTER_D] + y).None?
    }

    /** A text that ends with a whole object on a line of its own is one value only if there is
        nothing before that line. */
    ghost predicate LastLineLaw(x: Bytes, m: Fields) {
      !JsonSpace(x) ==> decode(x + [LF] + encode(m)).None?
    }

    /** What is assumed of broken texts: they are read as JSON. */
    ghost predicate Textual() {
      && (forall x, y :: SpaceLaw(x, y))
      && (forall x, m :: LastLineLaw(x, m))
    }
  }
}
