/**
 * Python's numeric conversions on decoded JSON values, with Python's `int` and
 * `float` both modelled exactly (as `int` and `real`).
 */
module PyNumbers {
  import opened Wrappers
  import opened JsonData
  import Numerals

  /** `x.is_integer()` for a float x. */
  predicate IsIntegral(r: real) { r == r.Floor as real }

  /** `int(x)` for a float x: truncation toward zero. */
  function Trunc(r: real): (n: int)
    ensures IsIntegral(r) ==> n as real == r
    ensures 0.0 <= r ==> 0 <= n && n as real <= r < n as real + 1.0
    ensures r < 0.0 ==> n <= 0 && n as real - 1.0 < r <= n as real
  {
    if r >= 0.0 then r.Floor
    else
      var m := (-r).Floor;
      assert IsIntegral(r) ==> m == -r.Floor;
      -m
  }

  /** `isinstance(x, int)`: a JSON boolean is a Python `bool`, which is an `int`. */
  predicate IsPyInt(x: Json) { x.JInt? || x.JBool? }

  function PyIntValue(x: Json): int
    requires IsPyInt(x)
  {
    if x.JInt? then x.i else if x.b then 1 else 0
  }

  /** `float(x)`: None where Python raises (TypeError for null, lists and dicts, ValueError for bad strings). */
  function PyFloat(x: Json): (r: Option<real>)
    ensures IsPyInt(x) ==> r == Some(PyIntValue(x) as real)
    ensures NumberValue(x).Some? ==> r == NumberValue(x)
    ensures (x.JNull? || x.JArr? || x.JObj?) ==> r.None?
  {
    match x
    case JInt(i) => Some(i as real)
    case JBool(b) => Some(if b then 1.0 else 0.0)
    case JNum(r) => Some(r)
    case JStr(s) => Numerals.ParseFloat(s)
    case _ => None
  }

  /** `[float(x) for x in xs]`: it fails as a whole when `float` fails on any item. */
  function FloatAll(xs: seq<Json>): (r: Option<seq<real>>)
    ensures r.Some? <==> forall i | 0 <= i < |xs| :: PyFloat(xs[i]).Some?
    ensures r.Some? ==> |r.value| == |xs|
    ensures r.Some? ==> forall i | 0 <= i < |xs| :: r.value[i] == PyFloat(xs[i]).value
  {
    if xs == [] then Some([])
    else
      match PyFloat(xs[0])
      case None => None
      case Some(x) =>
        match FloatAll(xs[1..])
        case None => None
        case Some(rest) => Some([x] + rest)
  }
}
