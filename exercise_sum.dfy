/**
 * The `sum` server of solutions/exercise-001-intro. Its `make_error` and
 * `handle_request` are line for line those of solutions/001-intro, so the
 * `sum` branch is IntroSum's; it has only the stdio mode, and its parse error
 * response has no `id` key.
 */
module ExerciseSum {
  import opened Wrappers
  import opened JsonData
  import Rpc
  import Transport
  import IntroSum

  function HandleRequest(req: Json): (r: Option<Json>)
    ensures Rpc.IsEnvelope(req) && Rpc.MethodName(req) != "sum" ==>
      r.Some? && Rpc.IsError(r.value, Rpc.MethodNotFound, "Method not found") && Rpc.EchoesNonNullId(r.value, req.fields)
    ensures r.None? <==>
      Rpc.IsEnvelope(req) && Rpc.MethodName(req) == "sum" && IntroSum.SumParams(req.fields).Ok? && "id" !in req.fields
  {
    Rpc.Dispatch("sum", IntroSum.SumParams, req)
  }

  /**
   * The two `handle_request` texts are the same code, so both are modelled by
   * the same `Dispatch` and branch; this records that they then agree.
   */
  lemma SameAsIntro(req: Json)
    ensures HandleRequest(req) == IntroSum.HandleRequest(req)
  {
  }

  /** The `__main__` block: a parse failure prints an error without `id`; `None` prints nothing. */
  function StdioMain(input: Transport.Input): (out: seq<Json>)
    ensures input.ParseFailure? ==>
      |out| == 1 && Rpc.IsError(out[0], Rpc.ParseError, "Parse error") && "id" !in out[0].fields
    ensures input.Decoded? ==> (out == [] <==> HandleRequest(input.value).None?)
    ensures input.Decoded? && HandleRequest(input.value).Some? ==> out == [HandleRequest(input.value).value]
  {
    Transport.StdioOutput(HandleRequest, false, input)
  }

  /** Error responses carry an `id` only when the request's id is present and not null. */
  lemma ErrorIdOnlyWhenNonNull(req: Json)
    requires HandleRequest(req).Some? && "error" in HandleRequest(req).value.fields
    ensures req.JObj? ==> Rpc.EchoesNonNullId(HandleRequest(req).value, req.fields)
    ensures !req.JObj? ==> "id" !in HandleRequest(req).value.fields
  {
  }
}
