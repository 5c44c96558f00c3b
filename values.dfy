/**
 * The dynamically typed values the Python code passes around (decoded JSON
 * event payloads, log arguments), and Python's notion of truthiness on them.
 */
module Values {

  /** A JSON value; `JNull` stands for Python's `None`. */
  datatype Json =
    | JNull
    | JBool(b: bool)
    | JNumber(n: int)
    | JString(s: string)
    | JArray(items: seq<Json>)
    | JObject(obj: map<string, Json>)

  /** Python truthiness: `None`, `False`, `0`, `""`, `[]` and `{}` are falsy. */
  predicate Truthy(v: Json) {
    match v
    case JNull => false
    case JBool(b) => b
    case JNumber(n) => n != 0
    case JString(s) => s != ""
    case JArray(items) => items != []
    case JObject(obj) => obj != map[]
  }

  /** `dict.get(key)` on a decoded object: the value, or `None` when absent. */
  function Get(obj: map<string, Json>, key: string): Json {
    if key in obj then obj[key] else JNull
  }

  /** One call of `log_object.write_log(logpoint, None, fields)`. */
  datatype LogEntry = LogEntry(logpoint: string, fields: map<string, Json>)
}
