/**
 * A message body after `json.loads`: the values a JSON document can denote.
 * Parsing itself is not modelled; a body that does not parse is represented
 * by the absence of a value where a message is described.
 */
module Json {
  import opened Wrappers

  datatype Json =
    | JNull
    | JBool(b: bool)
    | JNumber(n: real)
    | JString(s: string)
    | JArray(items: seq<Json>)
    | JObject(fields: map<string, Json>)

  /**
   * Python's `value[key]` with a string key: it yields the member of an object
   * that has the key, and raises (KeyError on an object without it, TypeError
   * on an array, a string, a number, a boolean or null) otherwise.
   */
  function Index(value: Json, key: string): (r: Option<Json>)
    ensures r.Some? <==> value.JObject? && key in value.fields
    ensures r.Some? ==> r.value == value.fields[key]
  {
    match value
    case JObject(fields) => if key in fields then Some(fields[key]) else None
    case _ => None
  }

  /** Every lookup `value[k]` for `k` in `keys` succeeds. */
  predicate HasFields(value: Json, keys: seq<string>)
  {
    forall i :: 0 <= i < |keys| ==> Index(value, keys[i]).Some?
  }
}
