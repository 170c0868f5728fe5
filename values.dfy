/** JavaScript values as the webhook handlers see them in parsed request bodies,
    query strings and task-service responses. */
module Values {

  /** An optional field: `None` is `undefined` (the key is absent). */
  datatype Option<+T> = None | Some(value: T)

  /** A JSON value, carried verbatim (numbers kept as their literal text). */
  datatype Json =
    | JNull
    | JBool(b: bool)
    | JNumber(literal: string)
    | JString(s: string)
    | JArray(items: seq<Json>)
    | JObject(fields: seq<(string, Json)>)

  /** JavaScript truthiness of an optional string: `undefined` and `""` are falsy. */
  predicate Truthy(v: Option<string>)
  {
    v.Some? && v.value != ""
  }
}
