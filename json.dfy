/** The JSON values `json.loads` produces, seen as the Python objects the agent
    inspects: their truthiness, `dict.get`, and `str()`. */
module Json {
  import opened Text

  /** A decoded JSON value; an object is a Python `dict` keyed by its member names. */
  datatype Json =
    | JNull
    | JBool(b: bool)
    | JNumber(x: real)
    | JString(s: string)
    | JArray(items: seq<Json>)
    | JObject(fields: map<string, Json>)

  /** Python truthiness: `None`, `False`, zero, and empty strings, lists and dicts are false. */
  predicate Truthy(v: Json) {
    match v
    case JNull => false
    case JBool(b) => b
    case JNumber(x) => x != 0.0
    case JString(s) => s != ""
    case JArray(items) => items != []
    case JObject(fields) => fields != map[]
  }

  /** `d.get(key)`: the value under `key`, or `None` when the key is absent. */
  function Get(d: map<string, Json>, key: string): Json {
    if key in d then d[key] else JNull
  }

  /** `str(v)`. Strings, `None` and booleans are written out; how numbers, lists and
      dicts print is left to `render`. */
  function PyStr(v: Json, render: Json -> string): string {
    match v
    case JNull => "None"
    case JBool(b) => if b then "True" else "False"
    case JString(s) => s
    case _ => render(v)
  }
}
