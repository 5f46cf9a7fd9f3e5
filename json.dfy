/** JSON documents as Python holds them after decoding. */
module JsonValue {

  /** A decoded JSON value: objects become dicts (keyed by strings, without
      key order) and arrays become lists. Only integral numbers occur. */
  datatype Json =
    | JNull
    | JBool(b: bool)
    | JInt(i: int)
    | JStr(s: string)
    | JArr(items: seq<Json>)
    | JObj(fields: map<string, Json>)
}
