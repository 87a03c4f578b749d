/** The JSON values the handlers decode and re-encode. Numbers are kept
    opaque: none of the modelled decisions depends on their value except
    Python's truthiness of zero. */
module Json {

  datatype Json =
    | JNull
    | JBool(b: bool)
    | JNum(n: int)
    | JStr(s: string)
    | JArr(items: seq<Json>)
    | JObj(fields: map<string, Json>)

  /** A decoded JSON object: a Python `dict` with string keys. */
  type Object = map<string, Json>

  /** `d.get(key)`: Python answers `None` both for a missing key and for a
      JSON `null`, so both read as `JNull`. */
  function Get(d: Object, key: string): Json
  {
    if key in d then d[key] else JNull
  }

  /** `d.get(key, default)`: only a missing key yields the default. */
  function GetOr(d: Object, key: string, default: Json): Json
  {
    if key in d then d[key] else default
  }

  /** Python's truth value of a decoded JSON value. */
  predicate Truthy(v: Json) {
    match v
    case JNull => false
    case JBool(b) => b
    case JNum(n) => n != 0
    case JStr(s) => s != ""
    case JArr(items) => items != []
    case JObj(fields) => fields != map[]
  }
}
