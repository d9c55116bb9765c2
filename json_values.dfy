/** The decoded JSON values that travel in query maps, request bodies and responses. */
module JsonValues {

  /**
   * A decoded JSON value. Numbers are integers only: the client itself only
   * ever puts an integer (`page_size`) into a request.
   */
  datatype Json =
    | JNull
    | JBool(b: bool)
    | JInt(i: int)
    | JStr(s: string)
    | JArr(items: seq<Json>)
    | JObj(fields: map<string, Json>)

  /** A JSON object, which Python sees as a `Dict[str, Any]`. */
  type JsonObject = map<string, Json>

  /** Python's `d.get(key, default)` on a decoded object. */
  function Get(d: JsonObject, key: string, default: Json): (r: Json)
    ensures key in d ==> r == d[key]
    ensures key !in d ==> r == default
  {
    if key in d then d[key] else default
  }
}
