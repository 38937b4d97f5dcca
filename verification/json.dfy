/** Request bodies as `readJSON` delivers them: a parsed JSON value, or the error it throws. */
module Json {
  import opened Wrappers

  datatype JsonValue =
    | JNull
    | JBool(b: bool)
    | JNumber(n: real)
    | JString(s: string)
    | JArray(items: seq<JsonValue>)
    | JObject(fields: map<string, JsonValue>)

  /** What awaiting `readJSON(request)` yields: a value, or a thrown parse error with its `String(error)`. */
  datatype RequestBody = Unparsable(description: string) | Parsed(value: JsonValue)

  /** JavaScript truthiness of a parsed value: `null`, `false`, `0` and `""` are falsy. */
  predicate Truthy(v: JsonValue) {
    match v
    case JNull => false
    case JBool(b) => b
    case JNumber(n) => n != 0.0
    case JString(s) => s != []
    case _ => true
  }

  /** `v[name]` when `typeof v[name] === "string"`; none of the names used here is inherited by any JSON value. */
  function StringProperty(v: JsonValue, name: string): Option<string> {
    if v.JObject? && name in v.fields && v.fields[name].JString? then Some(v.fields[name].s) else None
  }
}
