/**
 * The JSON-RPC 2.0 envelope layer of rlm_sandbox.py: the error codes, the check that a
 * decoded request is an object with a method, and the response envelope.
 */
module Protocol {
  import opened Wrappers
  import opened JsonTypes
  import opened Interpreter

  const ParseError: int := -32700
  const InvalidRequest: int := -32600
  const MethodNotFound: int := -32601
  /** Declared by the source and never raised by it. */
  const InvalidParams: int := -32602
  const InternalError: int := -32603

  /** The source's JsonRpcError (its `data` is never set by any caller and is left out). */
  datatype RpcError = RpcError(code: int, message: string)

  /** A decoded value the sandbox accepts as a request: an object carrying `method`. */
  predicate IsRequest(v: Json)
  {
    v.Object? && "method" in v.fields
  }

  /**
   * What parse_jsonrpc_request raises: a JsonRpcError of its own, or an exception of the
   * decoder other than JSONDecodeError, which its `except` clause lets through.
   */
  datatype ParseFault =
    | Invalid(error: RpcError)
    | Escaped(fault: Fault)

  /**
   * parse_jsonrpc_request: decode the line and accept only an object with a `method` key,
   * which is returned as decoded.
   */
  function ParseRequest(rt: Runtime, line: string): (r: Result<map<string, Json>, ParseFault>)
    ensures r.Success? <==> rt.loads(line).Success? && IsRequest(rt.loads(line).value)
    ensures r.Success? ==> rt.loads(line).value == Object(r.value)
    ensures rt.loads(line).Failure? && rt.loads(line).error.kind == JsonDecodeError ==>
              r == Failure(Invalid(RpcError(ParseError, "Parse error: " + rt.loads(line).error.message)))
    ensures rt.loads(line).Failure? && rt.loads(line).error.kind != JsonDecodeError ==>
              r == Failure(Escaped(rt.loads(line).error))
    ensures rt.loads(line).Success? && !rt.loads(line).value.Object? ==>
              r == Failure(Invalid(RpcError(InvalidRequest, "Invalid Request: expected object")))
    ensures rt.loads(line).Success? && rt.loads(line).value.Object? && !IsRequest(rt.loads(line).value) ==>
              r == Failure(Invalid(RpcError(InvalidRequest, "Invalid Request: missing method")))
  {
    match rt.loads(line)
    case Failure(f) =>
      if f.kind == JsonDecodeError then Failure(Invalid(RpcError(ParseError, "Parse error: " + f.message)))
      else Failure(Escaped(f))
    case Success(request) =>
      if !request.Object? then
        Failure(Invalid(RpcError(InvalidRequest, "Invalid Request: expected object")))
      else if "method" !in request.fields then
        Failure(Invalid(RpcError(InvalidRequest, "Invalid Request: missing method")))
      else
        Success(request.fields)
  }

  /** The `{"code": ..., "message": ...}` dict the dispatcher puts under `error`. */
  function ErrorObject(e: RpcError): map<string, Json>
  {
    map["code" := Int(e.code), "message" := String(e.message)]
  }

  /**
   * format_jsonrpc_response: `jsonrpc` and `id` always, then `error` when an error dict is
   * given and `result` when `error` is None. (The error is a dict, as its `.get('code')` in
   * the logging line requires.)
   */
  function FormatResponse(id: Json, result: Json, error: Option<map<string, Json>>): (r: Json)
    ensures r.Object?
    ensures r.fields.Keys == {"jsonrpc", "id", if error.Some? then "error" else "result"}
    ensures r.fields["jsonrpc"] == String("2.0") && r.fields["id"] == id
    ensures error.Some? ==> r.fields["error"] == Object(error.value)
    ensures error.None? ==> r.fields["result"] == result
  {
    var envelope := map["jsonrpc" := String("2.0"), "id" := id];
    if error.Some? then Object(envelope["error" := Object(error.value)])
    else Object(envelope["result" := result])
  }

  /** A response envelope as its reader sees it: the echoed id and a result or an error. */
  datatype Response = Response(id: Json, outcome: Result<Json, Json>)

  /**
   * Reads a response envelope: an object tagged `"jsonrpc": "2.0"` with an `id` and exactly
   * one of `result` and `error`.
   */
  function ReadResponse(v: Json): Option<Response>
  {
    if !v.Object? then None
    else
      var f := v.fields;
      if "jsonrpc" !in f || f["jsonrpc"] != String("2.0") || "id" !in f then None
      else if "error" in f && "result" !in f then Some(Response(f["id"], Failure(f["error"])))
      else if "result" in f && "error" !in f then Some(Response(f["id"], Success(f["result"])))
      else None
  }

  /** Every formatted response reads back as its id and its one outcome. */
  lemma ReadFormatted(id: Json, result: Json, error: Option<map<string, Json>>)
    ensures ReadResponse(FormatResponse(id, result, error)) ==
            Some(Response(id, if error.Some? then Failure(Object(error.value)) else Success(result)))
  {
  }

  /**
   * Conversely, a readable envelope with no other keys whose `error`, if any, is a dict is
   * exactly what FormatResponse builds from its parts.
   */
  lemma FormatRead(v: Json)
    requires ReadResponse(v).Some? && (ReadResponse(v).value.outcome.Failure? ==> ReadResponse(v).value.outcome.error.Object?)
    requires v.fields.Keys <= {"jsonrpc", "id", "result", "error"}
    ensures var r := ReadResponse(v).value;
            FormatResponse(r.id, if r.outcome.Success? then r.outcome.value else Null,
                           if r.outcome.Failure? then Some(r.outcome.error.fields) else None) == v
  {
    var r := ReadResponse(v).value;
    var f := v.fields;
    var g := FormatResponse(r.id, if r.outcome.Success? then r.outcome.value else Null,
                            if r.outcome.Failure? then Some(r.outcome.error.fields) else None).fields;
    assert g.Keys == f.Keys;
    assert forall k :: k in f ==> g[k] == f[k];
  }
}
