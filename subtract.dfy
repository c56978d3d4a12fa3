/**
 * The `subtract` server of solutions/exercise-002-subtract: positional
 * `[minuend, subtrahend]` or named `{minuend, subtrahend}` parameters, each
 * operand coerced by `to_number`.
 */
module Subtract {
  import opened Wrappers
  import opened JsonData
  import opened PyNumbers
  import Numerals
  import Rpc
  import Transport

  const TooFew := "Invalid params: expected two numbers"
  const NotNumbers := "Invalid params: minuend and subtrahend must be numbers"
  const BadShape := "Invalid params"

  /** A Python number as `to_number` returns it: an `int` or a `float`. */
  datatype Number = IntNum(i: int) | FloatNum(r: real)

  function Value(n: Number): real
  {
    match n
    case IntNum(i) => i as real
    case FloatNum(r) => r
  }

  /**
   * `to_number(x)`: ints (bools included) and floats are kept, a string with
   * a '.' goes through `float`, any other string through `int`, and anything
   * else raises. Whenever it succeeds, the model's `float(x)` succeeds too,
   * with the same value; on non-strings the two succeed together.
   */
  function ToNumber(x: Json): (r: Option<Number>)
    ensures IsPyInt(x) ==> r == Some(IntNum(PyIntValue(x)))
    ensures x.JNum? ==> r == Some(FloatNum(x.r))
    ensures x.JNull? || x.JArr? || x.JObj? ==> r.None?
    ensures x.JStr? && '.' in x.s ==>
      r == (match Numerals.ParseFloat(x.s)
            case None => None
            case Some(f) => Some(FloatNum(f)))
    ensures x.JStr? && '.' !in x.s ==>
      r == (match Numerals.ParseInt(x.s)
            case None => None
            case Some(n) => Some(IntNum(n)))
    ensures !x.JStr? ==> (r.Some? <==> PyFloat(x).Some?)
    ensures r.Some? ==> PyFloat(x).Some? && Value(r.value) == PyFloat(x).value
    ensures r.Some? ==> (r.value.IntNum? <==> IsPyInt(x) || (x.JStr? && '.' !in x.s))
  {
    match x
    case JInt(i) => Some(IntNum(i))
    case JBool(b) => Some(IntNum(if b then 1 else 0))
    case JNum(f) => Some(FloatNum(f))
    case JStr(s) =>
      if '.' in s then
        (match Numerals.ParseFloat(s)
         case None => None
         case Some(f) => Some(FloatNum(f)))
      else
        Numerals.ParseFloatWithoutDot(s);
        (match Numerals.ParseInt(s)
         case None => None
         case Some(n) => Some(IntNum(n)))
    case _ => None
  }

  /** `a - b` in Python: an int when both operands are ints, a float otherwise. */
  function Minus(a: Number, b: Number): (d: Number)
    ensures Value(d) == Value(a) - Value(b)
    ensures d.IntNum? <==> a.IntNum? && b.IntNum?
  {
    if a.IntNum? && b.IntNum? then IntNum(a.i - b.i) else FloatNum(Value(a) - Value(b))
  }

  /** The narrowing before the result is sent: a float with an integral value becomes an int. */
  function Narrow(n: Number): (v: Json)
    ensures NumberValue(v) == Some(Value(n))
    ensures v.JInt? <==> IsIntegral(Value(n))
  {
    match n
    case IntNum(i) => JInt(i)
    case FloatNum(f) => if IsIntegral(f) then JInt(Trunc(f)) else JNum(f)
  }

  /**
   * What subtracting y from x must give: it fails exactly when `to_number`
   * refuses an operand; otherwise the difference of their values, an int
   * exactly when it is integral, and that is also the difference of the
   * operands' `float` values.
   */
  ghost predicate Subtracted(r: Rpc.MethodResult, x: Json, y: Json)
  {
    && (r.Err? <==> ToNumber(x).None? || ToNumber(y).None?)
    && (r.Err? ==> r.message == NotNumbers)
    && (r.Ok? ==>
          var d := Value(ToNumber(x).value) - Value(ToNumber(y).value);
          && NumberValue(r.value) == Some(d)
          && (r.value.JInt? <==> IsIntegral(d))
          && PyFloat(x).Some? && PyFloat(y).Some? && d == PyFloat(x).value - PyFloat(y).value)
  }

  /** The `try` block shared by both parameter shapes. */
  function Difference(x: Json, y: Json): (r: Rpc.MethodResult)
    ensures Subtracted(r, x, y)
  {
    match (ToNumber(x), ToNumber(y))
    case (Some(a), Some(b)) => Rpc.Ok(Narrow(Minus(a, b)))
    case _ => Rpc.Err(NotNumbers)
  }

  /**
   * The `subtract` branch up to the notification check. Parameters default
   * to []; a list needs two items and the rest are ignored; an object is read
   * by key, a missing key giving None, which `to_number` refuses.
   */
  function SubtractParams(req: map<string, Json>): (r: Rpc.MethodResult)
    ensures var p := Get(req, "params", JArr([]));
      p.JArr? && |p.items| < 2 ==> r == Rpc.Err(TooFew)
    ensures var p := Get(req, "params", JArr([]));
      p.JArr? && |p.items| >= 2 ==> Subtracted(r, p.items[0], p.items[1])
    ensures var p := Get(req, "params", JArr([]));
      p.JObj? ==> Subtracted(r, Get(p.fields, "minuend", JNull), Get(p.fields, "subtrahend", JNull))
    ensures var p := Get(req, "params", JArr([]));
      !p.JArr? && !p.JObj? ==> r == Rpc.Err(BadShape)
  {
    var params := Get(req, "params", JArr([]));
    if params.JArr? then
      if |params.items| < 2 then Rpc.Err(TooFew)
      else Difference(params.items[0], params.items[1])
    else if params.JObj? then
      Difference(Get(params.fields, "minuend", JNull), Get(params.fields, "subtrahend", JNull))
    else
      Rpc.Err(BadShape)
  }

  /** `handle_request`: the shared checks, then the `subtract` branch. */
  function HandleRequest(req: Json): (r: Option<Json>)
    ensures !Rpc.IsEnvelope(req) ==> r == Some(Rpc.Validate(req).response)
    ensures Rpc.IsEnvelope(req) && Rpc.MethodName(req) != "subtract" ==>
      r.Some? && Rpc.IsError(r.value, Rpc.MethodNotFound, "Method not found")
    ensures Rpc.IsEnvelope(req) && Rpc.MethodName(req) == "subtract" && SubtractParams(req.fields).Err? ==>
      r.Some? && Rpc.IsError(r.value, Rpc.InvalidParams, SubtractParams(req.fields).message)
    ensures Rpc.IsEnvelope(req) && Rpc.MethodName(req) == "subtract" && SubtractParams(req.fields).Ok? ==>
      r == if "id" in req.fields then Some(Rpc.Success(req.fields, SubtractParams(req.fields).value)) else None
  {
    Rpc.Dispatch("subtract", SubtractParams, req)
  }

  /** The stdio `__main__` block. */
  function StdioMain(input: Transport.Input): (out: seq<Json>)
    ensures input.ParseFailure? ==> out == [Transport.ParseErrorResponse(true)]
    ensures input.Decoded? ==> (out == [] <==> HandleRequest(input.value).None?)
    ensures input.Decoded? && HandleRequest(input.value).Some? ==> out == [HandleRequest(input.value).value]
  {
    Transport.StdioOutput(HandleRequest, true, input)
  }

  /** `do_POST`. */
  function DoPost(input: Transport.Input): (reply: Transport.HttpReply)
    ensures input.ParseFailure? ==> reply == Transport.HttpReply(200, Some(Transport.ParseErrorResponse(true)))
    ensures input.Decoded? && HandleRequest(input.value).None? ==> reply == Transport.HttpReply(204, None)
    ensures input.Decoded? && HandleRequest(input.value).Some? ==> reply == Transport.HttpReply(200, HandleRequest(input.value))
  {
    Transport.HttpPost(HandleRequest, input)
  }

  lemma FivePointFive()
    ensures '.' in "5.5" && Numerals.ParseFloat("5.5") == Some(5.5)
  {
    var s := "5.5";
    assert s[1] == '.';
    assert Numerals.IndexOfDot(s) == 1;
    assert s[..1] == "5" && s[2..] == "5";
    assert Numerals.DigitsValue("5") == 5 by { assert "5"[..0] == []; }
    assert Numerals.Unsigned(s) == s;
    assert Numerals.ParseMagnitude(s) == Some(5.5);
  }

  lemma NamedDifference()
    ensures Difference(JStr("5.5"), JNum(2.5)) == Rpc.Ok(JInt(3))
  {
    FivePointFive();
    assert ToNumber(JStr("5.5")) == Some(FloatNum(5.5));
    assert Minus(FloatNum(5.5), FloatNum(2.5)) == FloatNum(3.0);
    assert IsIntegral(3.0) && Trunc(3.0) == 3;
  }

  lemma NamedParams(fields: map<string, Json>)
    requires fields == Rpc.Call("subtract", JObj(map["minuend" := JStr("5.5"), "subtrahend" := JNum(2.5)]), JInt(7)).fields
    ensures SubtractParams(fields) == Rpc.Ok(JInt(3))
  {
    NamedDifference();
  }

  /** Named parameters; a numeric string with a '.' is a float, and an integral difference is sent as an int. */
  lemma NamedExample()
    ensures var params := JObj(map["minuend" := JStr("5.5"), "subtrahend" := JNum(2.5)]);
      HandleRequest(Rpc.Call("subtract", params, JInt(7)))
        == Some(JObj(map["jsonrpc" := JStr("2.0"), "result" := JInt(3), "id" := JInt(7)]))
  {
    var params := JObj(map["minuend" := JStr("5.5"), "subtrahend" := JNum(2.5)]);
    var req := Rpc.Call("subtract", params, JInt(7));
    NamedParams(req.fields);
    assert Rpc.IsEnvelope(req) && Rpc.MethodName(req) == "subtract" && "id" in req.fields;
    assert Rpc.Success(req.fields, JInt(3))
      == JObj(map["jsonrpc" := JStr("2.0"), "result" := JInt(3), "id" := JInt(7)]);
  }

  /** A string without '.' goes through `int`, so an exponent numeral is refused. */
  lemma ExponentOperandExample()
    ensures var params := JObj(map["minuend" := JStr("1e3"), "subtrahend" := JInt(1)]);
      SubtractParams(Rpc.Call("subtract", params, JInt(8)).fields) == Rpc.Err(NotNumbers)
  {
    assert '.' !in "1e3" && !Numerals.AllDigits("1e3") by { assert !Numerals.IsDigit("1e3"[1]); }
  }

  /** A missing named operand is read as None and refused; a notification still gets that error. */
  lemma MissingOperandExample()
    ensures var note := JObj(map["jsonrpc" := JStr("2.0"), "method" := JStr("subtract"),
                                 "params" := JObj(map["minuend" := JInt(1)])]);
      HandleRequest(note).Some? && Rpc.IsError(HandleRequest(note).value, Rpc.InvalidParams, NotNumbers)
  {
  }
}
