/**
 * The values the booking service exchanges: Python objects decoded from JSON
 * (dicts, lists, strings, integers, booleans and None).  A dict is an unordered
 * map from string keys, so two dicts are equal exactly when Python's `==` on
 * dicts says so.
 */
module Json {
  import opened Wrappers

  datatype Json =
    | JNull
    | JBool(b: bool)
    | JNum(n: int)
    | JStr(s: string)
    | JArr(items: seq<Json>)
    | JObj(fields: map<string, Json>)

  /** Python truthiness: None, False, 0, "", [] and {} are false, everything else true. */
  predicate Truthy(j: Json) {
    match j
    case JNull => false
    case JBool(b) => b
    case JNum(n) => n != 0
    case JStr(s) => s != ""
    case JArr(items) => items != []
    case JObj(fields) => fields != map[]
  }

  /** `v[key]`: defined only when `v` is a dict that holds `key`. */
  function Field(v: Json, key: string): (r: Option<Json>)
    ensures r.Some? <==> v.JObj? && key in v.fields
    ensures r.Some? ==> r.value == v.fields[key]
  {
    if v.JObj? && key in v.fields then Some(v.fields[key]) else None
  }

  /** `d.get(key)` on a dict: the value, or None when the key is absent. */
  function Get(d: map<string, Json>, key: string): Json {
    if key in d then d[key] else JNull
  }

  /** The Python `None` for an absent value, the value itself otherwise. */
  function OrNull(v: Option<string>): Json {
    match v
    case Some(s) => JStr(s)
    case None => JNull
  }
}
