/**
 * The `divide` server of solutions/004-divide: positional `[dividend,
 * divisor]` or named `{dividend, divisor}` parameters, both converted with
 * `float`; a zero divisor is a parameter error.
 */
module Divide {
  import opened Wrappers
  import opened JsonData
  import opened PyNumbers
  import Rpc
  import Transport

  const TooFew := "Invalid params: expected two numbers"
  const BadShape := "Invalid params"
  const NotNumbers := "Invalid params: dividend and divisor must be numbers"
  const ByZero := "Invalid params: division by zero"

  /**
   * What dividing x by y must give: both convert with `float`, the divisor is
   * not zero, and the quotient is sent as an int exactly when it is integral,
   * whatever the operands' types.
   */
  ghost predicate Divided(r: Rpc.MethodResult, x: Json, y: Json)
  {
    && (PyFloat(x).None? || PyFloat(y).None? ==> r == Rpc.Err(NotNumbers))
    && (PyFloat(x).Some? && PyFloat(y).Some? && PyFloat(y).value == 0.0 ==> r == Rpc.Err(ByZero))
    && (PyFloat(x).Some? && PyFloat(y).Some? && PyFloat(y).value != 0.0 ==>
          var q := PyFloat(x).value / PyFloat(y).value;
          r.Ok? && NumberValue(r.value) == Some(q) && (r.value.JInt? <==> IsIntegral(q)))
  }

  /** From the `float` conversions to the narrowed quotient. */
  function Quotient(dividend: Json, divisor: Json): (r: Rpc.MethodResult)
    ensures Divided(r, dividend, divisor)
  {
    match (PyFloat(dividend), PyFloat(divisor))
    case (Some(a), Some(b)) =>
      if b == 0.0 then Rpc.Err(ByZero)
      else
        var res := a / b;
        if IsIntegral(res) then Rpc.Ok(JInt(Trunc(res))) else Rpc.Ok(JNum(res))
    case _ => Rpc.Err(NotNumbers)
  }

  /**
   * The `divide` branch up to the notification check. Parameters default to
   * []; a list needs two items and the rest are ignored; an object is read by
   * key, a missing key giving None, which `float` refuses.
   */
  function DivideParams(req: map<string, Json>): (r: Rpc.MethodResult)
    ensures var p := Get(req, "params", JArr([]));
      p.JArr? && |p.items| < 2 ==> r == Rpc.Err(TooFew)
    ensures var p := Get(req, "params", JArr([]));
      p.JArr? && |p.items| >= 2 ==> Divided(r, p.items[0], p.items[1])
    ensures var p := Get(req, "params", JArr([]));
      p.JObj? ==> Divided(r, Get(p.fields, "dividend", JNull), Get(p.fields, "divisor", JNull))
    ensures var p := Get(req, "params", JArr([]));
      !p.JArr? && !p.JObj? ==> r == Rpc.Err(BadShape)
  {
    var params := Get(req, "params", JArr([]));
    if params.JArr? then
      if |params.items| < 2 then Rpc.Err(TooFew)
      else Quotient(params.items[0], params.items[1])
    else if params.JObj? then
      Quotient(Get(params.fields, "dividend", JNull), Get(params.fields, "divisor", JNull))
    else
      Rpc.Err(BadShape)
  }

  /** `handle_request`: the shared checks, then the `divide` branch. */
  function HandleRequest(req: Json): (r: Option<Json>)
    ensures !Rpc.IsEnvelope(req) ==> r == Some(Rpc.Validate(req).response)
    ensures Rpc.IsEnvelope(req) && Rpc.MethodName(req) != "divide" ==>
      r.Some? && Rpc.IsError(r.value, Rpc.MethodNotFound, "Method not found")
    ensures Rpc.IsEnvelope(req) && Rpc.MethodName(req) == "divide" && DivideParams(req.fields).Err? ==>
      r.Some? && Rpc.IsError(r.value, Rpc.InvalidParams, DivideParams(req.fields).message)
    ensures Rpc.IsEnvelope(req) && Rpc.MethodName(req) == "divide" && DivideParams(req.fields).Ok? ==>
      r == if "id" in req.fields then Some(Rpc.Success(req.fields, DivideParams(req.fields).value)) else None
  {
    Rpc.Dispatch("divide", DivideParams, req)
  }

  /** The stdio `__main__` block. */
  function StdioMain(input: Transport.Input): (out: seq<Json>)
    ensures input.ParseFailure? ==> out == [Transport.ParseErrorResponse(true)]
    ensures input.Decoded? ==> (out == [] <==> HandleRequest(input.value).None?)
    ensures input.Decoded? && HandleRequest(input.value).Some? ==> out == [HandleRequest(input.value).value]
  {
    Transport.StdioOutput(HandleRequest, true, input)
  }

  /** `do_POST`. */
  function DoPost(input: Transport.Input): (reply: Transport.HttpReply)
    ensures input.ParseFailure? ==> reply == Transport.HttpReply(200, Some(Transport.ParseErrorResponse(true)))
    ensures input.Decoded? && HandleRequest(input.value).None? ==> reply == Transport.HttpReply(204, None)
    ensures input.Decoded? && HandleRequest(input.value).Some? ==> reply == Transport.HttpReply(200, HandleRequest(input.value))
  {
    Transport.HttpPost(HandleRequest, input)
  }

  /** Dividing by zero is a -32602 error with the request's id, not a crash. */
  lemma ZeroDivisorExample()
    ensures var r := HandleRequest(Rpc.Call("divide", JArr([JInt(10), JInt(0)]), JInt(3)));
      r.Some? && Rpc.IsError(r.value, Rpc.InvalidParams, ByZero) && r.value.fields["id"] == JInt(3)
  {
  }

  /** A notification asking to divide by zero is still answered. */
  lemma ZeroDivisorNotificationExample()
    ensures var note := JObj(map["jsonrpc" := JStr("2.0"), "method" := JStr("divide"),
                                 "params" := JArr([JInt(1), JInt(0)])]);
      HandleRequest(note).Some? && Rpc.IsError(HandleRequest(note).value, Rpc.InvalidParams, ByZero)
  {
  }

  /** Ints that do not divide evenly give a float; floats that do give an int. */
  lemma QuotientKindExamples()
    ensures Quotient(JInt(1), JInt(2)) == Rpc.Ok(JNum(0.5))
    ensures Quotient(JNum(3.0), JNum(1.5)) == Rpc.Ok(JInt(2))
  {
    assert !IsIntegral(0.5) by { assert (0.5).Floor == 0; }
    assert IsIntegral(2.0) by { assert (2.0).Floor == 2; }
  }
}
