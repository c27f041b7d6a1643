/**
 * Structured documents (token payloads and owner identities) and the text
 * codec that stores them in a text column.  The codec stands for
 * `JSON.stringify` and `JSON.parse`; it is left uninterpreted, and the only
 * thing any lemma assumes about it is `Lossless`.
 */
module Json {

  datatype Document =
    | JNull
    | JBool(b: bool)
    | JNumber(n: int)
    | JString(s: string)
    | JArray(items: seq<Document>)
    | JObject(members: seq<(string, Document)>)

  /** The document `{}`, returned for an empty or missing text column. */
  const EmptyObject: Document := JObject([])

  /** The pair `JSON.stringify` / `JSON.parse`. */
  datatype Codec = Codec(stringify: Document -> string, parse: string -> Document)

  /**
   * Parsing the text of a document gives the document back, and that text is
   * never empty (JSON text of a value has at least one character).
   */
  ghost predicate Lossless(codec: Codec) {
    forall d: Document :: codec.parse(codec.stringify(d)) == d && codec.stringify(d) != ""
  }
}
