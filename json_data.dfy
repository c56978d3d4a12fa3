/**
 * Decoded JSON values, as Python's `json` module hands them to the servers:
 * `null` is Python's `None`, an integer literal is an `int`, any other number
 * is a `float`, an object is a `dict` with string keys.
 */
module JsonData {
  import opened Wrappers

  datatype Json =
    | JNull
    | JBool(b: bool)
    | JInt(i: int)
    | JNum(r: real)
    | JStr(s: string)
    | JArr(items: seq<Json>)
    | JObj(fields: map<string, Json>)

  /** `d.get(key, default)` on a dict. */
  function Get(d: map<string, Json>, key: string, default: Json): Json
  {
    if key in d then d[key] else default
  }

  /** The numeric value of a JSON number, if the value is one. */
  function NumberValue(v: Json): Option<real>
  {
    match v
    case JInt(i) => Some(i as real)
    case JNum(r) => Some(r)
    case _ => None
  }
}
