/** Parsed JSON values and the JavaScript operations the server applies to them. */
module Json {
  import opened Wrappers

  /** A value as `JSON.parse` produces it (numbers as reals; JSON has no NaN). */
  datatype Json =
    | JNull
    | JBool(b: bool)
    | JNumber(n: real)
    | JString(s: string)
    | JArray(items: seq<Json>)
    | JObject(fields: map<string, Json>)

  /** JavaScript truthiness: `!!v`. Arrays and objects are truthy even when empty. */
  predicate Truthy(v: Json) {
    match v
    case JNull => false
    case JBool(b) => b
    case JNumber(n) => n != 0.0
    case JString(s) => s != ""
    case JArray(_) => true
    case JObject(_) => true
  }

  /** Reading `v.key`: `undefined` (None) unless `v` is an object that has `key`. */
  function Property(v: Json, key: string): (r: Option<Json>)
    ensures r.Some? <==> v.JObject? && key in v.fields
    ensures r.Some? ==> r.value == v.fields[key]
  {
    if v.JObject? && key in v.fields then Some(v.fields[key]) else None
  }

  /** `!!v.key`; an absent property reads as `undefined`, which is falsy. */
  predicate TruthyProperty(v: Json, key: string) {
    var p := Property(v, key);
    p.Some? && Truthy(p.value)
  }
}
