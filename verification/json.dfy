/** JSON values as the client and the token-login route see them: request
    bodies, response payloads and the route's replies. */
module Json {
  import opened Results

  datatype Json =
    | JNull
    | JBool(b: bool)
    | JNumber(n: int)
    | JString(s: string)
    | JArray(items: seq<Json>)
    | JObject(fields: map<string, Json>)

  /** Reading property `key` of a non-null value: the field of an object, and
      `undefined` (None) for a missing field or a value that is not an object. */
  function Property(v: Json, key: string): (r: Option<Json>)
    requires !v.JNull?
    ensures r.Some? <==> v.JObject? && key in v.fields
    ensures r.Some? ==> r.value == v.fields[key]
  {
    if v.JObject? && key in v.fields then Some(v.fields[key]) else None
  }

  /** A one-field object such as `{ message: '...' }`. */
  function Single(key: string, value: Json): Json {
    JObject(map[key := value])
  }
}
