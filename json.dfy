/**
 * Parsed JSON values, for the places where the code stores or spreads objects whose
 * fields it does not fix (connector data, directive records, request bodies). Numbers
 * are integers; floating point is not modelled.
 */
module JsonValue {
  import opened Wrappers

  datatype Json =
    | JNull
    | JBool(b: bool)
    | JNum(n: int)
    | JStr(s: string)
    | JArr(items: seq<Json>)
    | JObj(fields: map<string, Json>)

  /** A JSON object, by field name. */
  type Object = map<string, Json>

  /** JavaScript truthiness of a JSON value: `null`, `false`, `0` and `''` are falsy. */
  predicate Truthy(j: Json) {
    match j
    case JNull => false
    case JBool(b) => b
    case JNum(n) => n != 0
    case JStr(s) => s != ""
    case _ => true
  }

  /** `o.k`, with `None` for `undefined`. */
  function Field(o: Object, k: string): (r: Option<Json>)
    ensures r.Some? <==> k in o
  {
    if k in o then Some(o[k]) else None
  }

  /** `o.k || fallback`. */
  function FieldOr(o: Object, k: string, fallback: Json): (r: Json)
    ensures HasTruthy(o, k) ==> r == o[k]
    ensures !HasTruthy(o, k) ==> r == fallback
  {
    if k in o && Truthy(o[k]) then o[k] else fallback
  }

  /** `!!o.k`: the field is present and truthy. */
  predicate HasTruthy(o: Object, k: string) {
    k in o && Truthy(o[k])
  }

  /** `j.k` for a value read as an object: a field of an object, `undefined` on anything else. */
  function Member(j: Json, k: string): (r: Option<Json>)
    ensures r.Some? ==> j.JObj? && k in j.fields && r.value == j.fields[k]
  {
    if j.JObj? then Field(j.fields, k) else None
  }
}
