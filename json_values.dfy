/** The JSON values the back end reads from requests and writes into responses, as
    Python's `json` module represents them (an integer and a float are distinct). */
module JsonValues {

  datatype Json =
    | JNull
    | JBool(b: bool)
    | JInt(i: int)
    | JFloat(f: real)
    | JStr(s: string)
    | JArr(items: seq<Json>)
    | JObj(fields: map<string, Json>)

  /** Python truthiness (`bool(v)`) of a decoded JSON value: None, False, zero and
      empty strings, lists and dicts are false; everything else is true. */
  predicate Truthy(v: Json) {
    match v
    case JNull => false
    case JBool(b) => b
    case JInt(i) => i != 0
    case JFloat(f) => f != 0.0
    case JStr(s) => s != ""
    case JArr(items) => |items| != 0
    case JObj(fields) => |fields| != 0
  }

  /** A catalogue entry: one JSON object of `products.json`. */
  type Product = map<string, Json>

  /** The body `{'error': message}` of every error response. */
  function ErrorBody(message: string): Json {
    JObj(map["error" := JStr(message)])
  }
}
