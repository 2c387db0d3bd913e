/** The JSON values that `json.loads` produces and that the handlers return. */
module Json {

  /**
   * A decoded JSON document. Objects are Python dicts; their key order is not
   * represented. Numbers are integers (see README, "Left out").
   */
  datatype Json =
    | JNull
    | JBool(b: bool)
    | JNum(n: int)
    | JStr(s: string)
    | JArr(items: seq<Json>)
    | JObj(fields: map<string, Json>)

  /** An object with a single `"error"` entry, the shape of every short error reply. */
  function ErrorObject(message: string): Json {
    JObj(map["error" := JStr(message)])
  }
}
