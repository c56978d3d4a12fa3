/**
 * The `multiply` server of solutions/003-multiply: a list of numbers, or an
 * object whose `values` field is one; at least one number is required.
 */
module Multiply {
  import opened Wrappers
  import opened JsonData
  import opened PyNumbers
  import Rpc
  import Transport

  const NeedOne := "Invalid params: at least one number required"
  const NotNumbers := "Invalid params: items must be numbers"

  /** The product of a list, folded from the left starting at 1. */
  function Product(xs: seq<real>): real
  {
    if xs == [] then 1.0 else Product(xs[..|xs| - 1]) * xs[|xs| - 1]
  }

  /** `product_of_list(lst)`: the accumulating loop. */
  method ProductOfList(lst: seq<real>) returns (prod: real)
    ensures prod == Product(lst)
  {
    prod := 1.0;
    for i := 0 to |lst|
      invariant prod == Product(lst[..i])
    {
      assert lst[..i + 1][..i] == lst[..i];
      prod := prod * lst[i];
    }
    assert lst[..|lst|] == lst;
  }

  predicate AllIntegral(xs: seq<real>) { forall i | 0 <= i < |xs| :: IsIntegral(xs[i]) }

  lemma IntegralProduct(a: real, b: real)
    requires IsIntegral(a) && IsIntegral(b)
    ensures IsIntegral(a * b)
  {
    var m, n := a.Floor, b.Floor;
    assert a * b == (m * n) as real;
  }

  /** A product of integral factors is integral, so `int(prod)` loses nothing. */
  lemma {:induction false} ProductOfIntegrals(xs: seq<real>)
    requires AllIntegral(xs)
    ensures IsIntegral(Product(xs))
  {
    if xs != [] {
      var init := xs[..|xs| - 1];
      assert AllIntegral(init) by {
        forall i | 0 <= i < |init| ensures IsIntegral(init[i]) { assert init[i] == xs[i]; }
      }
      ProductOfIntegrals(init);
      var a, b := Product(init), xs[|xs| - 1];
      assert IsIntegral(b);
      IntegralProduct(a, b);
      assert IsIntegral(a * b);
      assert Product(xs) == a * b;
    } else {
      assert (1 as real).Floor == 1;
    }
  }

  /** The list to multiply: the params themselves, or the `values` list of a params object. */
  function Values(params: Json): (r: Option<seq<Json>>)
    ensures r.Some? <==>
      params.JArr? || (params.JObj? && "values" in params.fields && params.fields["values"].JArr?)
    ensures params.JArr? ==> r == Some(params.items)
    ensures r.Some? && params.JObj? ==> r.value == params.fields["values"].items
  {
    if params.JArr? then Some(params.items)
    else if params.JObj? && Get(params.fields, "values", JNull).JArr? then Some(params.fields["values"].items)
    else None
  }

  /**
   * The `multiply` branch up to the notification check. Absent or null
   * params, any other shape, and an empty list are one error; the result is
   * the product of the converted items, an int exactly when all of them are
   * integral after conversion.
   */
  function MultiplyParams(req: map<string, Json>): (r: Rpc.MethodResult)
    ensures var p := Get(req, "params", JNull);
      (p.JNull? || Values(p).None?) ==> r == Rpc.Err(NeedOne)
    ensures var p := Get(req, "params", JNull);
      Values(p) == Some([]) ==> r == Rpc.Err(NeedOne)
    ensures var p := Get(req, "params", JNull);
      Values(p).Some? && Values(p).value != [] ==>
        && (r.Err? <==> exists i | 0 <= i < |Values(p).value| :: PyFloat(Values(p).value[i]).None?)
        && (r.Err? ==> r.message == NotNumbers)
        && (r.Ok? ==>
              var nums := FloatAll(Values(p).value).value;
              NumberValue(r.value) == Some(Product(nums)) && (r.value.JInt? <==> AllIntegral(nums)))
  {
    var params := Get(req, "params", JNull);
    if params.JNull? then
      Rpc.Err(NeedOne)
    else
      match Values(params)
      case None => Rpc.Err(NeedOne)
      case Some(values) =>
        if values == [] then
          Rpc.Err(NeedOne)
        else
          match FloatAll(values)
          case None => Rpc.Err(NotNumbers)
          case Some(nums) =>
            var prod := Product(nums);
            if AllIntegral(nums) then
              ProductOfIntegrals(nums);
              Rpc.Ok(JInt(Trunc(prod)))
            else
              Rpc.Ok(JNum(prod))
  }

  /** `handle_request`: the shared checks, then the `multiply` branch. */
  function HandleRequest(req: Json): (r: Option<Json>)
    ensures !Rpc.IsEnvelope(req) ==> r == Some(Rpc.Validate(req).response)
    ensures Rpc.IsEnvelope(req) && Rpc.MethodName(req) != "multiply" ==>
      r.Some? && Rpc.IsError(r.value, Rpc.MethodNotFound, "Method not found")
    ensures Rpc.IsEnvelope(req) && Rpc.MethodName(req) == "multiply" && MultiplyParams(req.fields).Err? ==>
      r.Some? && Rpc.IsError(r.value, Rpc.InvalidParams, MultiplyParams(req.fields).message)
    ensures Rpc.IsEnvelope(req) && Rpc.MethodName(req) == "multiply" && MultiplyParams(req.fields).Ok? ==>
      r == if "id" in req.fields then Some(Rpc.Success(req.fields, MultiplyParams(req.fields).value)) else None
  {
    Rpc.Dispatch("multiply", MultiplyParams, req)
  }

  /** The stdio `__main__` block. */
  function StdioMain(input: Transport.Input): (out: seq<Json>)
    ensures input.ParseFailure? ==> out == [Transport.ParseErrorResponse(true)]
    ensures input.Decoded? ==> (out == [] <==> HandleRequest(input.value).None?)
    ensures input.Decoded? && HandleRequest(input.value).Some? ==> out == [HandleRequest(input.value).value]
  {
    Transport.StdioOutput(HandleRequest, true, input)
  }

  /** `do_POST`. */
  function DoPost(input: Transport.Input): (reply: Transport.HttpReply)
    ensures input.ParseFailure? ==> reply == Transport.HttpReply(200, Some(Transport.ParseErrorResponse(true)))
    ensures input.Decoded? && HandleRequest(input.value).None? ==> reply == Transport.HttpReply(204, None)
    ensures input.Decoded? && HandleRequest(input.value).Some? ==> reply == Transport.HttpReply(200, HandleRequest(input.value))
  {
    Transport.HttpPost(HandleRequest, input)
  }

  /** The integrality test runs on the converted floats: 2.0 and 3 multiply to the int 6. */
  lemma IntegralFloatExample()
    ensures HandleRequest(Rpc.Call("multiply", JObj(map["values" := JArr([JNum(2.0), JInt(3)])]), JInt(1)))
      == Some(JObj(map["jsonrpc" := JStr("2.0"), "result" := JInt(6), "id" := JInt(1)]))
  {
    var values := [JNum(2.0), JInt(3)];
    assert PyFloat(values[0]) == Some(2.0) && PyFloat(values[1]) == Some(3.0);
    assert FloatAll(values).value == [2.0, 3.0];
    assert [2.0, 3.0][..1] == [2.0] && [2.0][..0] == [];
    assert Product([2.0, 3.0]) == 6.0;
    var req := Rpc.Call("multiply", JObj(map["values" := JArr(values)]), JInt(1));
    assert MultiplyParams(req.fields) == Rpc.Ok(JInt(6));
  }

  /** Null params are refused, for a notification too. */
  lemma NullParamsExample()
    ensures var note := JObj(map["jsonrpc" := JStr("2.0"), "method" := JStr("multiply"), "params" := JNull]);
      HandleRequest(note).Some? && Rpc.IsError(HandleRequest(note).value, Rpc.InvalidParams, NeedOne)
  {
  }
}
