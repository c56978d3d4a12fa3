/**
 * The part of `handle_request` that every server shares: the error
 * constructor `make_error`, the three envelope checks, routing to the
 * server's one method, and turning the method's outcome into a response
 * (or into no response at all, written `None` as in the servers).
 */
module Rpc {
  import opened Wrappers
  import opened JsonData

  const ParseError := -32700
  const InvalidRequest := -32600
  const MethodNotFound := -32601
  const InvalidParams := -32602

  /** What the body of a method branch computes: the result, or the message of its -32602 error. */
  datatype MethodResult = Ok(value: Json) | Err(message: string)

  /** `req.get("id")`: null both when the id is null and when the key is absent. */
  function IdOf(req: map<string, Json>): Json
  {
    Get(req, "id", JNull)
  }

  /** `make_error(id_, code, message, data)`; a null `id_` or `data` stands for Python's `None`. */
  function MakeError(id: Json, code: int, message: string, data: Json): (r: Json)
    ensures r.JObj? && "jsonrpc" in r.fields && "error" in r.fields && "result" !in r.fields
    ensures r.fields["jsonrpc"] == JStr("2.0")
    ensures "id" in r.fields <==> id != JNull
    ensures "id" in r.fields ==> r.fields["id"] == id
    ensures r.fields.Keys <= {"jsonrpc", "error", "id"}
    ensures r.fields["error"].JObj?
    ensures r.fields["error"].fields.Keys <= {"code", "message", "data"}
    ensures "code" in r.fields["error"].fields && r.fields["error"].fields["code"] == JInt(code)
    ensures "message" in r.fields["error"].fields && r.fields["error"].fields["message"] == JStr(message)
    ensures "data" in r.fields["error"].fields <==> data != JNull
    ensures "data" in r.fields["error"].fields ==> r.fields["error"].fields["data"] == data
  {
    var err := map["code" := JInt(code), "message" := JStr(message)];
    var err := if data != JNull then err["data" := data] else err;
    var resp := map["jsonrpc" := JStr("2.0"), "error" := JObj(err)];
    JObj(if id != JNull then resp["id" := id] else resp)
  }

  /** A response is an error with this code and message and no `data` (the only form the servers build). */
  predicate IsError(resp: Json, code: int, message: string)
  {
    && resp.JObj?
    && "jsonrpc" in resp.fields && resp.fields["jsonrpc"] == JStr("2.0")
    && "result" !in resp.fields
    && "error" in resp.fields
    && resp.fields["error"] == JObj(map["code" := JInt(code), "message" := JStr(message)])
    && resp.fields.Keys <= {"jsonrpc", "error", "id"}
  }

  /** The response carries the request's id exactly when that id is present and not null. */
  predicate EchoesNonNullId(resp: Json, req: map<string, Json>)
  {
    && resp.JObj?
    && ("id" in resp.fields <==> IdOf(req) != JNull)
    && ("id" in resp.fields ==> resp.fields["id"] == IdOf(req))
  }

  /** The success response for a request: the id is always present, null included. */
  function Success(req: map<string, Json>, value: Json): (r: Json)
    ensures r.JObj? && r.fields.Keys == {"jsonrpc", "result", "id"}
    ensures r.fields["jsonrpc"] == JStr("2.0") && r.fields["result"] == value
    ensures r.fields["id"] == IdOf(req) && ("id" in req ==> r.fields["id"] == req["id"])
  {
    JObj(map["jsonrpc" := JStr("2.0"), "result" := value, "id" := IdOf(req)])
  }

  /** A request passes the three checks: an object, `jsonrpc` equal to "2.0", a string `method`. */
  predicate IsEnvelope(req: Json)
  {
    req.JObj? && Get(req.fields, "jsonrpc", JNull) == JStr("2.0") && Get(req.fields, "method", JNull).JStr?
  }

  function MethodName(req: Json): string
    requires IsEnvelope(req)
  {
    req.fields["method"].s
  }

  datatype Validation = Accepted(fields: map<string, Json>, methodName: string) | Rejected(response: Json)

  /** The checks at the top of every `handle_request`, in their order: the first failure wins. */
  function Validate(req: Json): (v: Validation)
    ensures v.Accepted? <==> IsEnvelope(req)
    ensures v.Accepted? ==> v.fields == req.fields && v.methodName == MethodName(req)
    ensures !req.JObj? ==>
      v.Rejected? && IsError(v.response, InvalidRequest, "Invalid Request") && "id" !in v.response.fields
    ensures req.JObj? && Get(req.fields, "jsonrpc", JNull) != JStr("2.0") ==>
      && v.Rejected?
      && IsError(v.response, InvalidRequest, "Invalid Request: jsonrpc must be '2.0'")
      && EchoesNonNullId(v.response, req.fields)
    ensures req.JObj? && Get(req.fields, "jsonrpc", JNull) == JStr("2.0") && !Get(req.fields, "method", JNull).JStr? ==>
      && v.Rejected?
      && IsError(v.response, InvalidRequest, "Invalid Request: method must be a string")
      && EchoesNonNullId(v.response, req.fields)
  {
    if !req.JObj? then
      Rejected(MakeError(JNull, InvalidRequest, "Invalid Request", JNull))
    else if Get(req.fields, "jsonrpc", JNull) != JStr("2.0") then
      Rejected(MakeError(IdOf(req.fields), InvalidRequest, "Invalid Request: jsonrpc must be '2.0'", JNull))
    else
      var m := Get(req.fields, "method", JNull);
      if !m.JStr? then
        Rejected(MakeError(IdOf(req.fields), InvalidRequest, "Invalid Request: method must be a string", JNull))
      else
        Accepted(req.fields, m.s)
  }

  /**
   * The tail of a method branch: an error is answered whether or not the
   * request has an `id` key; a success is answered only when it has one.
   */
  function Answer(req: map<string, Json>, outcome: MethodResult): (r: Option<Json>)
    ensures outcome.Err? ==> r.Some? && IsError(r.value, InvalidParams, outcome.message) && EchoesNonNullId(r.value, req)
    ensures outcome.Ok? ==> (r.None? <==> "id" !in req)
    ensures outcome.Ok? && "id" in req ==>
      r.Some? && r.value.JObj? && r.value.fields.Keys == {"jsonrpc", "result", "id"}
      && r.value.fields["jsonrpc"] == JStr("2.0") && r.value.fields["result"] == outcome.value
      && r.value.fields["id"] == req["id"]
  {
    match outcome
    case Err(message) => Some(MakeError(IdOf(req), InvalidParams, message, JNull))
    case Ok(value) => if "id" !in req then None else Some(Success(req, value))
  }

  /** `handle_request` of a server whose one method is `name`, with `handler` as its branch. */
  function Dispatch(name: string, handler: map<string, Json> -> MethodResult, req: Json): (r: Option<Json>)
    ensures !IsEnvelope(req) ==> r == Some(Validate(req).response)
    ensures IsEnvelope(req) && MethodName(req) != name ==>
      r.Some? && IsError(r.value, MethodNotFound, "Method not found") && EchoesNonNullId(r.value, req.fields)
    ensures IsEnvelope(req) && MethodName(req) == name ==> r == Answer(req.fields, handler(req.fields))
    ensures r.None? <==>
      IsEnvelope(req) && MethodName(req) == name && handler(req.fields).Ok? && "id" !in req.fields
  {
    match Validate(req)
    case Rejected(response) => Some(response)
    case Accepted(fields, methodName) =>
      if methodName == name then Answer(fields, handler(fields))
      else Some(MakeError(IdOf(fields), MethodNotFound, "Method not found", JNull))
  }

  /** A well-formed call of method `name` with these params and id. */
  function Call(name: string, params: Json, id: Json): Json
  {
    JObj(map["jsonrpc" := JStr("2.0"), "method" := JStr(name), "params" := params, "id" := id])
  }

  /** Every response holds exactly one of `result` and `error`, beside `jsonrpc` "2.0". */
  lemma ResultXorError(name: string, handler: map<string, Json> -> MethodResult, req: Json)
    requires Dispatch(name, handler, req).Some?
    ensures var resp := Dispatch(name, handler, req).value;
      && resp.JObj? && "jsonrpc" in resp.fields && resp.fields["jsonrpc"] == JStr("2.0")
      && (("result" in resp.fields) != ("error" in resp.fields))
  {
  }

  /** A response's id is never made up or altered: when present it is the request's `id` value. */
  lemma IdIsEchoed(name: string, handler: map<string, Json> -> MethodResult, req: Json)
    requires Dispatch(name, handler, req).Some? && "id" in Dispatch(name, handler, req).value.fields
    ensures req.JObj? && "id" in req.fields
    ensures Dispatch(name, handler, req).value.fields["id"] == req.fields["id"]
  {
  }

  /** A null id is kept in a success response but dropped from an error response. */
  lemma NullIdOnlyInSuccess(name: string, handler: map<string, Json> -> MethodResult, req: Json)
    requires req.JObj? && "id" in req.fields && req.fields["id"] == JNull
    ensures var r := Dispatch(name, handler, req);
      r.Some? && ("id" in r.value.fields <==> "result" in r.value.fields)
  {
  }
}
