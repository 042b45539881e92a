/**
 * The values that `json.loads` produces and that the deal log, the API
 * responses and the error details hold, with Python's truthiness on them.
 * JSON numbers are kept as integers; `None` and JSON `null` are the same value.
 */
module JsonValues {
  import opened Options

  datatype Json =
    | JNull
    | JBool(b: bool)
    | JNum(n: int)
    | JStr(s: string)
    | JArr(items: seq<Json>)
    | JObj(fields: map<string, Json>)

  /** Python's `bool(v)`. */
  predicate Truthy(v: Json)
  {
    match v
    case JNull => false
    case JBool(b) => b
    case JNum(n) => n != 0
    case JStr(s) => |s| > 0
    case JArr(items) => |items| > 0
    case JObj(fields) => |fields| > 0
  }

  /** `d.get(key, default)` */
  function Get(d: map<string, Json>, key: string, default: Json): (r: Json)
    ensures key in d ==> r == d[key]
    ensures key !in d ==> r == default
  {
    if key in d then d[key] else default
  }

  /** Python's `len(v)`, or `None` where `len` raises (numbers, booleans, `None`). */
  function Len(v: Json): (r: Option<nat>)
    ensures r.Some? <==> (v.JStr? || v.JArr? || v.JObj?)
    ensures r.Some? ==> (r.value > 0 <==> Truthy(v))
  {
    match v
    case JStr(s) => Some(|s|)
    case JArr(items) => Some(|items|)
    case JObj(fields) => Some(|fields|)
    case _ => None
  }
}
