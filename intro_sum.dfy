/** The `sum` server of solutions/001-intro: positional parameters only. */
module IntroSum {
  import opened Wrappers
  import opened JsonData
  import opened PyNumbers
  import Rpc
  import Transport

  const NotAList := "Invalid params"
  const NotNumbers := "Invalid params: items must be numbers"

  predicate AllPyInt(items: seq<Json>) { forall i | 0 <= i < |items| :: IsPyInt(items[i]) }

  /**
   * Python's `sum` over floats: left to right, starting from 0. The ensures
   * only documents the exact-real abstraction: on reals the grouping does not
   * matter, so the total is also the first item plus the sum of the rest
   * (IEEE sums do not have this property).
   */
  function FloatSum(xs: seq<real>): (r: real)
    ensures xs != [] ==> r == xs[0] + FloatSum(xs[1..])
  {
    if xs == [] then 0.0
    else
      var init, rest := xs[..|xs| - 1], xs[1..];
      assert init != [] ==> init[0] == xs[0] && init[1..] == rest[..|rest| - 1];
      assert rest != [] ==> rest[|rest| - 1] == xs[|xs| - 1];
      FloatSum(init) + xs[|xs| - 1]
  }

  /** The exact sum of items that are all Python ints: what the narrowed result is meant to be. */
  function IntSum(items: seq<Json>): int
    requires AllPyInt(items)
  {
    if items == [] then 0 else IntSum(items[..|items| - 1]) + PyIntValue(items[|items| - 1])
  }

  /** Converting ints to floats, summing and converting back loses nothing. */
  lemma {:induction false} FloatSumOfInts(items: seq<Json>, nums: seq<real>)
    requires AllPyInt(items) && |nums| == |items|
    requires forall i | 0 <= i < |items| :: nums[i] == PyIntValue(items[i]) as real
    ensures FloatSum(nums) == IntSum(items) as real
  {
    if items != [] {
      var n := |items|;
      FloatSumOfInts(items[..n - 1], nums[..n - 1]);
    }
  }

  /**
   * The `sum` branch up to the notification check. Parameters default to [];
   * anything but a list is refused; every item must convert with `float`; the
   * total is an int exactly when every item is a (Python) int.
   */
  function SumParams(req: map<string, Json>): (r: Rpc.MethodResult)
    ensures !Get(req, "params", JArr([])).JArr? ==> r == Rpc.Err(NotAList)
    ensures var p := Get(req, "params", JArr([]));
      p.JArr? ==>
        && (r.Err? <==> exists i | 0 <= i < |p.items| :: PyFloat(p.items[i]).None?)
        && (r.Err? ==> r.message == NotNumbers)
        && (AllPyInt(p.items) ==> r == Rpc.Ok(JInt(IntSum(p.items))))
        && (r.Ok? && !AllPyInt(p.items) ==> r.value.JNum? && r.value.r == FloatSum(FloatAll(p.items).value))
  {
    var params := Get(req, "params", JArr([]));
    if !params.JArr? then
      Rpc.Err(NotAList)
    else
      match FloatAll(params.items)
      case None => Rpc.Err(NotNumbers)
      case Some(nums) =>
        var total := FloatSum(nums);
        if AllPyInt(params.items) then
          FloatSumOfInts(params.items, nums);
          Rpc.Ok(JInt(Trunc(total)))
        else
          Rpc.Ok(JNum(total))
  }

  /** `handle_request`: the shared checks, then the `sum` branch. */
  function HandleRequest(req: Json): (r: Option<Json>)
    ensures !Rpc.IsEnvelope(req) ==> r == Some(Rpc.Validate(req).response)
    ensures Rpc.IsEnvelope(req) && Rpc.MethodName(req) != "sum" ==>
      r.Some? && Rpc.IsError(r.value, Rpc.MethodNotFound, "Method not found")
    ensures Rpc.IsEnvelope(req) && Rpc.MethodName(req) == "sum" && SumParams(req.fields).Err? ==>
      r.Some? && Rpc.IsError(r.value, Rpc.InvalidParams, SumParams(req.fields).message)
    ensures Rpc.IsEnvelope(req) && Rpc.MethodName(req) == "sum" && SumParams(req.fields).Ok? ==>
      r == if "id" in req.fields then Some(Rpc.Success(req.fields, SumParams(req.fields).value)) else None
  {
    Rpc.Dispatch("sum", SumParams, req)
  }

  /** The stdio `__main__` block: the lines printed for one input. */
  function StdioMain(input: Transport.Input): (out: seq<Json>)
    ensures input.ParseFailure? ==> out == [Transport.ParseErrorResponse(true)]
    ensures input.Decoded? ==> (out == [] <==> HandleRequest(input.value).None?)
    ensures input.Decoded? && HandleRequest(input.value).Some? ==> out == [HandleRequest(input.value).value]
  {
    Transport.StdioOutput(HandleRequest, true, input)
  }

  /** `do_POST`: the status and body sent for one request body. */
  function DoPost(input: Transport.Input): (reply: Transport.HttpReply)
    ensures input.ParseFailure? ==> reply == Transport.HttpReply(200, Some(Transport.ParseErrorResponse(true)))
    ensures input.Decoded? && HandleRequest(input.value).None? ==> reply == Transport.HttpReply(204, None)
    ensures input.Decoded? && HandleRequest(input.value).Some? ==> reply == Transport.HttpReply(200, HandleRequest(input.value))
  {
    Transport.HttpPost(HandleRequest, input)
  }

  lemma OneTwoThree()
    ensures AllPyInt([JInt(1), JInt(2), JInt(3)]) && IntSum([JInt(1), JInt(2), JInt(3)]) == 6
  {
    var one := [JInt(1), JInt(2), JInt(3)];
    assert [JInt(1)][..0] == [] && IntSum([JInt(1)]) == 1;
    assert one[..2] == [JInt(1), JInt(2)] && one[..2][..1] == [JInt(1)] && IntSum(one[..2]) == 3;
  }

  /** All-int items give an int total. */
  lemma IntTotalExample()
    ensures HandleRequest(Rpc.Call("sum", JArr([JInt(1), JInt(2), JInt(3)]), JInt(1)))
      == Some(JObj(map["jsonrpc" := JStr("2.0"), "result" := JInt(6), "id" := JInt(1)]))
  {
    var one := [JInt(1), JInt(2), JInt(3)];
    OneTwoThree();
    var req := Rpc.Call("sum", JArr(one), JInt(1));
    assert Rpc.IsEnvelope(req) && Rpc.MethodName(req) == "sum";
    assert SumParams(req.fields) == Rpc.Ok(JInt(6));
    assert Rpc.Answer(req.fields, Rpc.Ok(JInt(6))) == Some(Rpc.Success(req.fields, JInt(6)));
  }

  /** One float item makes the total a float. */
  lemma FloatTotalExample()
    ensures HandleRequest(Rpc.Call("sum", JArr([JNum(1.5), JInt(2)]), JInt(2)))
      == Some(JObj(map["jsonrpc" := JStr("2.0"), "result" := JNum(3.5), "id" := JInt(2)]))
  {
    var two := [JNum(1.5), JInt(2)];
    assert PyFloat(two[0]) == Some(1.5) && PyFloat(two[1]) == Some(2.0);
    assert FloatAll(two).value == [1.5, 2.0];
    assert [1.5, 2.0][..1] == [1.5] && [1.5][..0] == [];
    assert FloatSum([1.5, 2.0]) == 3.5;
    assert !AllPyInt(two) by { assert !IsPyInt(two[0]); }
    var req := Rpc.Call("sum", JArr(two), JInt(2));
    assert SumParams(req.fields) == Rpc.Ok(JNum(3.5));
  }

  /** An empty list is accepted and sums to the int 0. */
  lemma EmptySumExample()
    ensures HandleRequest(Rpc.Call("sum", JArr([]), JInt(5)))
      == Some(JObj(map["jsonrpc" := JStr("2.0"), "result" := JInt(0), "id" := JInt(5)]))
  {
    var req := Rpc.Call("sum", JArr([]), JInt(5));
    assert SumParams(req.fields) == Rpc.Ok(JInt(0));
  }

  /** A notification whose parameters fail still gets an error response; a successful one gets none. */
  lemma NotificationExamples()
    ensures var note := JObj(map["jsonrpc" := JStr("2.0"), "method" := JStr("sum"), "params" := JArr([JStr("x")])]);
      HandleRequest(note).Some? && Rpc.IsError(HandleRequest(note).value, Rpc.InvalidParams, NotNumbers)
    ensures HandleRequest(JObj(map["jsonrpc" := JStr("2.0"), "method" := JStr("sum"), "params" := JArr([JInt(1)])])).None?
  {
    assert FloatAll([JStr("x")]).None? by { assert PyFloat(JStr("x")).None?; }
  }
}
