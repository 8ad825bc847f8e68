/** Decoded JSON values, as Python's `json` module and JavaScript objects see them. */
module JsonValues {
  import opened Wrappers

  datatype Json =
    | JNull
    | JBool(b: bool)
    | JInt(i: int)
    | JReal(r: real)
    | JStr(s: string)
    | JArr(items: seq<Json>)
    | JObj(fields: map<string, Json>)

  /** Python's truth value of a decoded JSON value (`if value:`). */
  predicate PyTruthy(j: Json)
  {
    match j
    case JNull => false
    case JBool(b) => b
    case JInt(i) => i != 0
    case JReal(r) => r != 0.0
    case JStr(s) => s != []
    case JArr(a) => a != []
    case JObj(m) => m != map[]
  }

  /** Python `data.get(key)` on a dict. */
  function Get(fields: map<string, Json>, key: string): (r: Option<Json>)
    ensures r.Some? <==> key in fields
    ensures r.Some? ==> r.value == fields[key]
  {
    if key in fields then Some(fields[key]) else None
  }

  /** A JSON number read as a Python number (`int` or `float`). */
  function AsNumber(j: Json): (r: Option<real>)
    ensures r.Some? <==> j.JInt? || j.JReal?
  {
    match j
    case JInt(i) => Some(i as real)
    case JReal(r) => Some(r)
    case _ => None
  }

  function AsString(j: Json): (r: Option<string>)
    ensures r.Some? <==> j.JStr?
  {
    if j.JStr? then Some(j.s) else None
  }
}
