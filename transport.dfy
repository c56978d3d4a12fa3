/**
 * What the stdio `__main__` block and the HTTP `do_POST` handler make of one
 * request body, once `json.loads` has either produced a value or raised.
 */
module Transport {
  import opened Wrappers
  import opened JsonData
  import Rpc

  datatype Input = Decoded(value: Json) | ParseFailure

  /** The status line and body `do_POST` sends back. */
  datatype HttpReply = HttpReply(status: int, body: Option<Json>)

  /** `make_error(None, -32700, "Parse error")`, then `resp['id'] = None` when `nullId` holds. */
  function ParseErrorResponse(nullId: bool): (r: Json)
    ensures Rpc.IsError(r, Rpc.ParseError, "Parse error")
    ensures "id" in r.fields <==> nullId
    ensures nullId ==> r.fields["id"] == JNull
    ensures nullId ==> r == JObj(map[
      "jsonrpc" := JStr("2.0"),
      "error" := JObj(map["code" := JInt(-32700), "message" := JStr("Parse error")]),
      "id" := JNull])
    ensures !nullId ==> r == JObj(map[
      "jsonrpc" := JStr("2.0"),
      "error" := JObj(map["code" := JInt(-32700), "message" := JStr("Parse error")])])
  {
    var resp := Rpc.MakeError(JNull, Rpc.ParseError, "Parse error", JNull);
    if nullId then JObj(resp.fields["id" := JNull]) else resp
  }

  /** The responses the stdio mode prints: at most one line, none for a `None` outcome. */
  function StdioOutput(handle: Json -> Option<Json>, nullId: bool, input: Input): (lines: seq<Json>)
    ensures |lines| <= 1
    ensures lines == [] <==> input.Decoded? && handle(input.value).None?
    ensures input.ParseFailure? ==> lines == [ParseErrorResponse(nullId)]
    ensures input.Decoded? && handle(input.value).Some? ==> lines == [handle(input.value).value]
  {
    match input
    case ParseFailure => [ParseErrorResponse(nullId)]
    case Decoded(req) =>
      match handle(req)
      case None => []
      case Some(resp) => [resp]
  }

  /** The HTTP mode: 200 with a JSON body, or 204 with none for a `None` outcome. */
  function HttpPost(handle: Json -> Option<Json>, input: Input): (reply: HttpReply)
    ensures reply.status == 200 || reply.status == 204
    ensures reply.status == 204 <==> reply.body.None?
    ensures reply.status == 204 <==> input.Decoded? && handle(input.value).None?
    ensures input.ParseFailure? ==> reply.body == Some(ParseErrorResponse(true))
    ensures input.Decoded? && handle(input.value).Some? ==> reply.body == handle(input.value)
  {
    match input
    case ParseFailure => HttpReply(200, Some(ParseErrorResponse(true)))
    case Decoded(req) =>
      match handle(req)
      case None => HttpReply(204, None)
      case Some(resp) => HttpReply(200, Some(resp))
  }

  /** Both modes, given the same body, deliver the same JSON-RPC payload. */
  lemma TransportIndependence(handle: Json -> Option<Json>, input: Input)
    ensures StdioOutput(handle, true, input) ==
      match HttpPost(handle, input).body
      case None => []
      case Some(resp) => [resp]
  {
  }
}
