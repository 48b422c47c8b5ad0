/**
 * handle_request of rlm_sandbox.py: one request line in, one response envelope out.
 * A request is Received (a line), Parsed (ParseRequest), Routed (RouteOf) and then
 * Completed with a result or Failed with an error object; every path yields exactly one
 * envelope. The request id is bound only once parsing has succeeded, so every parse or
 * validation failure is answered with a null id.
 */
module Dispatcher {
  import opened Wrappers
  import opened JsonTypes
  import opened Interpreter
  import opened Protocol
  import opened Sandbox

  /** The Routed state: the sandbox operation chosen, or the error the request fails with. */
  datatype Route =
    | ToExecute(code: Json)
    | ToInitialize(context: Json)
    | ToDestroy
    | Rejected(error: RpcError)

  /** The reply to both `initialize` and `destroy`. */
  const StatusOk: Json := Object(map["status" := String("ok")])

  function Ok(id: Json, result: Json): Json
  {
    FormatResponse(id, result, None)
  }

  function Err(id: Json, e: RpcError): Json
  {
    FormatResponse(id, Null, Some(ErrorObject(e)))
  }

  /** The `{stdout, stderr, duration}` object `execute` returns. */
  function ResultObject(r: ExecResult): Json
  {
    Object(map["stdout" := String(r.stdout), "stderr" := String(r.stderr), "duration" := Float(r.durationMs)])
  }

  /**
   * The routing branch of handle_request: the three known methods, then MethodNotFound.
   * `params.get(...)` on a params value that is not a dict raises AttributeError, which
   * the handler reports as an internal error.
   */
  function RouteOf(rt: Runtime, name: Json, params: Json): (r: Route)
    ensures r.ToDestroy? <==> name == String("destroy")
    ensures r.ToExecute? <==> name == String("execute") && params.Object?
    ensures r.ToInitialize? <==> name == String("initialize") && params.Object?
    ensures r.ToExecute? ==> r.code == Get(params.fields, "code", String(""))
    ensures r.ToInitialize? ==> r.context == Get(params.fields, "context", String(""))
    ensures r.Rejected? ==> r.error.code == (if name in {String("execute"), String("initialize")}
                                             then InternalError else MethodNotFound)
  {
    if name == String("execute") then
      if params.Object? then ToExecute(Get(params.fields, "code", String("")))
      else Rejected(RpcError(InternalError, NoAttribute(params, "get").message))
    else if name == String("initialize") then
      if params.Object? then ToInitialize(Get(params.fields, "context", String("")))
      else Rejected(RpcError(InternalError, NoAttribute(params, "get").message))
    else if name == String("destroy") then
      ToDestroy
    else
      Rejected(RpcError(MethodNotFound, "Method not found: " + Str(rt, Data(name))))
  }

  datatype Handled = Handled(response: Json, after: Snapshot)

  /**
   * The error a failed parse is answered with: a JsonRpcError as raised, any other
   * exception as InternalError with its text (the handler's two `except` clauses).
   */
  function Reported(p: ParseFault): (e: RpcError)
    ensures p.Invalid? ==> e == p.error
    ensures p.Escaped? ==> e.code == InternalError && e.message == p.fault.message
  {
    match p
    case Invalid(e) => e
    case Escaped(f) => RpcError(InternalError, f.message)
  }

  /**
   * Completed or Failed: run the routed operation and format its outcome under `id`. The
   * request completes exactly when the operation returns: `destroy` always, `execute` for
   * string code, `initialize` for a context with a length; a rejected route changes nothing.
   */
  function Complete(rt: Runtime, id: Json, route: Route, durationMs: real, st: Snapshot): (h: Handled)
    ensures ReadResponse(h.response).Some? && ReadResponse(h.response).value.id == id
    ensures ReadResponse(h.response).value.outcome.Success? <==>
              route.ToDestroy? || (route.ToExecute? && route.code.String?) ||
              (route.ToInitialize? && HasLen(route.context))
    ensures route.Rejected? ==> h == Handled(Err(id, route.error), st)
  {
    match route
    case ToExecute(code) =>
      var e := ExecuteSpec(rt, st, code, durationMs);
      if e.result.Success? then Handled(Ok(id, ResultObject(e.result.value)), e.after)
      else Handled(Err(id, RpcError(InternalError, e.result.error.message)), e.after)
    case ToInitialize(context) =>
      var i := InitializeSpec(st, context);
      if i.raised.None? then Handled(Ok(id, StatusOk), i.after)
      else Handled(Err(id, RpcError(InternalError, i.raised.value.message)), i.after)
    case ToDestroy =>
      Handled(Ok(id, StatusOk), DestroySpec(st))
    case Rejected(e) =>
      Handled(Err(id, e), st)
  }

  /**
   * handle_request as a function of the line and the sandbox state: always one readable
   * envelope; a failed parse answers with a null id and changes nothing; otherwise the
   * request's own id (null when absent) is echoed.
   */
  function Handle(rt: Runtime, line: string, durationMs: real, st: Snapshot): (h: Handled)
    ensures ReadResponse(h.response).Some?
    ensures ParseRequest(rt, line).Failure? ==>
              h.response == Err(Null, Reported(ParseRequest(rt, line).error)) && h.after == st
    ensures ParseRequest(rt, line).Success? ==>
              ReadResponse(h.response).value.id == Get(ParseRequest(rt, line).value, "id", Null)
  {
    match ParseRequest(rt, line)
    case Failure(p) => Handled(Err(Null, Reported(p)), st)
    case Success(request) =>
      var id := Get(request, "id", Null);
      var params := Get(request, "params", Object(map[]));
      Complete(rt, id, RouteOf(rt, request["method"], params), durationMs, st)
  }

  /**
   * handle_request on the sandbox object: the request id starts as null and is set once
   * the request has parsed; every failure becomes an error envelope.
   */
  method HandleRequest(sandbox: RlmSandbox, rt: Runtime, line: string, durationMs: real) returns (response: Json)
    modifies sandbox
    ensures Handled(response, sandbox.State()) == Handle(rt, line, durationMs, old(sandbox.State()))
  {
    var requestId := Null;
    var parsed := ParseRequest(rt, line);
    if parsed.Failure? {
      return Err(requestId, Reported(parsed.error));
    }
    var request := parsed.value;
    requestId := Get(request, "id", Null);
    var name := request["method"];
    var params := Get(request, "params", Object(map[]));
    if name == String("execute") {
      if !params.Object? {
        return Err(requestId, RpcError(InternalError, NoAttribute(params, "get").message));
      }
      var r := sandbox.Execute(rt, Get(params.fields, "code", String("")), durationMs);
      if r.Success? {
        response := Ok(requestId, ResultObject(r.value));
      } else {
        response := Err(requestId, RpcError(InternalError, r.error.message));
      }
    } else if name == String("initialize") {
      if !params.Object? {
        return Err(requestId, RpcError(InternalError, NoAttribute(params, "get").message));
      }
      var raised := sandbox.Initialize(Get(params.fields, "context", String("")));
      if raised.None? {
        response := Ok(requestId, StatusOk);
      } else {
        response := Err(requestId, RpcError(InternalError, raised.value.message));
      }
    } else if name == String("destroy") {
      sandbox.Destroy();
      response := Ok(requestId, StatusOk);
    } else {
      response := Err(requestId, RpcError(MethodNotFound, "Method not found: " + Str(rt, Data(name))));
    }
  }
}
