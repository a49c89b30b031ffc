/** JSON values as the record buffer sees them (Jackson's JsonNode tree).
    Objects are maps: the order in which an object node keeps its fields is
    not part of this model. Numbers carry an integer payload. */
module JsonValues {

  datatype Json =
    | JNull
    | JBool(b: bool)
    | JNum(n: int)
    | JStr(s: string)
    | JObj(fields: map<string, Json>)
    | JArr(items: seq<Json>)

  /** An object or an array: the values the buffer turns into their JSON text. */
  predicate IsContainer(v: Json) {
    v.JObj? || v.JArr?
  }

  /** A field map with no object- or array-valued field left in it. */
  ghost predicate IsFlat(m: map<string, Json>) {
    forall k :: k in m ==> !IsContainer(m[k])
  }

  /** A JSON serializer whose output never holds a raw line terminator, as a
      compact (not pretty-printed) writer that escapes control characters
      inside strings guarantees. */
  ghost predicate SingleLine(serialize: Json -> string) {
    forall v :: '\n' !in serialize(v)
  }
}
