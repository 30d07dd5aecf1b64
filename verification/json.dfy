/**
 * The JavaScript values the legacy client inspects at run time (`typeof`,
 * `Array.isArray`, truthiness, property access). Numbers are integers here.
 */
module Json {
  import opened Wrappers

  datatype Json =
    | JNull
    | JBool(b: bool)
    | JNumber(n: int)
    | JString(s: string)
    | JArray(items: seq<Json>)
    | JObject(fields: map<string, Json>)

  /** JavaScript truthiness: `null`, `false`, `0` and `""` are falsy. */
  predicate Truthy(v: Json) {
    match v
    case JNull => false
    case JBool(b) => b
    case JNumber(n) => n != 0
    case JString(s) => s != ""
    case JArray(_) => true
    case JObject(_) => true
  }

  /**
   * Property access `v.key`: the own property of an object, `undefined`
   * (None) for a missing key and for every non-object value.
   */
  function Member(v: Json, key: string): (r: Option<Json>)
    ensures r.Some? <==> v.JObject? && key in v.fields
    ensures r.Some? ==> r.value == v.fields[key]
  {
    if v.JObject? && key in v.fields then Some(v.fields[key]) else None
  }

  /** `typeof v === 'string'` for a property that may be `undefined`. */
  predicate IsString(v: Option<Json>) {
    v.Some? && v.value.JString?
  }
}
