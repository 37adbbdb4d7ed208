/**
 * The structured value that flows from the caller, through the Rust side, to the Python bridge and
 * back (serde_json's `Value` on one side, the decoded JSON of `json.loads` on the other). Only
 * integer numbers are represented; object keys are unordered.
 */
module JsonValue {
  import opened Wrappers

  datatype Json =
    | JNull
    | JBool(b: bool)
    | JInt(i: int)
    | JStr(s: string)
    | JArr(items: seq<Json>)
    | JObj(fields: map<string, Json>)

  /** The empty object `{}`. */
  const EmptyObject: Json := JObj(map[])

  /** serde_json's `value.get(key)`: a field of an object, absent for any other value. */
  function Get(v: Json, key: string): (r: Option<Json>)
    ensures r.Some? <==> v.JObj? && key in v.fields
    ensures r.Some? ==> r.value == v.fields[key]
  {
    if v.JObj? && key in v.fields then Some(v.fields[key]) else None
  }

  /** Python's `dict.get(key, default)` on a decoded JSON object. */
  function GetOrDefault(v: Json, key: string, default: Json): (r: Json)
    ensures v.JObj? && key in v.fields ==> r == v.fields[key]
    ensures !(v.JObj? && key in v.fields) ==> r == default
  {
    Get(v, key).GetOr(default)
  }

  /**
   * Python truthiness of a decoded JSON value: `None`, `False`, `0`, `""`, `[]` and `{}` are
   * false, everything else is true.
   */
  predicate Truthy(v: Json) {
    match v
    case JNull => false
    case JBool(b) => b
    case JInt(i) => i != 0
    case JStr(s) => s != ""
    case JArr(items) => items != []
    case JObj(fields) => fields != map[]
  }

  /** The JSON array of strings `[s0, s1, ...]`. */
  function StrArray(xs: seq<string>): (r: Json)
    ensures r.JArr? && |r.items| == |xs|
    ensures forall i :: 0 <= i < |xs| ==> r.items[i] == JStr(xs[i])
  {
    JArr(seq(|xs|, i requires 0 <= i < |xs| => JStr(xs[i])))
  }

  /** The JSON array of integers `[n0, n1, ...]`. */
  function IntArray(xs: seq<int>): (r: Json)
    ensures r.JArr? && |r.items| == |xs|
    ensures forall i :: 0 <= i < |xs| ==> r.items[i] == JInt(xs[i])
  {
    JArr(seq(|xs|, i requires 0 <= i < |xs| => JInt(xs[i])))
  }
}
