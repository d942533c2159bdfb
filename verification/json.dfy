/** Decoded JSON values as the Python code sees them after `response.json()`. */
module Json {

  /** A decoded JSON value. Numbers are integers; an object is a string-keyed dict
      whose key order is not modelled. */
  datatype Json =
    | Null
    | Bool(b: bool)
    | Num(n: int)
    | Str(s: string)
    | Arr(items: seq<Json>)
    | Obj(fields: map<string, Json>)

  /** A dict with string keys: an alert, a log entry, a request's parameters. */
  type Object = map<string, Json>

  /** Python truthiness (`if v:`) of a decoded JSON value. */
  predicate Truthy(v: Json) {
    match v
    case Null => false
    case Bool(b) => b
    case Num(n) => n != 0
    case Str(s) => s != ""
    case Arr(items) => items != []
    case Obj(fields) => fields != map[]
  }

  /** `d.get(key, default)`. */
  function GetOr(d: Object, key: string, default: Json): Json {
    if key in d then d[key] else default
  }

  /** The empty string `''`, the default of most `get` calls in the code. */
  const Empty: Json := Str("")
}
