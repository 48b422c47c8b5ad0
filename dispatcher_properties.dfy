/**
 * Properties of handle_request: which requests complete, which fail and with what code,
 * which id each response echoes, and the defaults for absent params, code and context.
 */
module DispatcherProperties {
  import opened Wrappers
  import opened JsonTypes
  import opened Interpreter
  import opened Protocol
  import opened Sandbox
  import opened SandboxProperties
  import opened Dispatcher

  /** The code of the error a response carries, if it carries one. */
  function ErrorCode(response: Json): Option<int>
  {
    match ReadResponse(response)
    case Some(Response(_, Failure(Object(e)))) =>
      if "code" in e && e["code"].Int? then Some(e["code"].i) else None
    case _ => None
  }

  /**
   * A line that does not decode fails with ParseError, and a decoded value that is not a
   * request with InvalidRequest; a decoder exception other than JSONDecodeError (too deep a
   * nesting, too long an integer) escapes the parser and is answered as InternalError. All
   * answer with a null id and leave the sandbox as it was.
   */
  lemma ParseFailures(rt: Runtime, line: string, durationMs: real, st: Snapshot)
    requires ParseRequest(rt, line).Failure?
    ensures var h := Handle(rt, line, durationMs, st);
            && ReadResponse(h.response).value.id == Null
            && ErrorCode(h.response) ==
                 Some(if rt.loads(line).Success? then InvalidRequest
                      else if rt.loads(line).error.kind == JsonDecodeError then ParseError
                      else InternalError)
            && h.after == st
  {
  }

  /**
   * `{"id": "x"}` without a method fails with InvalidRequest and a null id, not "x": the id
   * is bound only after validation succeeds.
   */
  lemma MissingMethodAnswersNullId(rt: Runtime, line: string, durationMs: real, st: Snapshot, id: Json)
    requires rt.loads(line) == Success(Object(map["id" := id]))
    ensures Handle(rt, line, durationMs, st).response ==
            Err(Null, RpcError(InvalidRequest, "Invalid Request: missing method"))
  {
  }

  /**
   * `execute` with a dict of params (or none) whose code is a string (or absent) succeeds,
   * echoes the id and returns the captured stdout and stderr.
   */
  lemma ExecuteCompletes(rt: Runtime, line: string, durationMs: real, st: Snapshot)
    requires ParseRequest(rt, line).Success?
    requires var request := ParseRequest(rt, line).value;
             var params := Get(request, "params", Object(map[]));
             && request["method"] == String("execute")
             && params.Object? && Get(params.fields, "code", String("")).String?
    ensures var request := ParseRequest(rt, line).value;
            var code := Get(Get(request, "params", Object(map[])).fields, "code", String(""));
            var e := ExecuteSpec(rt, st, code, durationMs);
            var h := Handle(rt, line, durationMs, st);
            && e.result.Success?
            && h.response == Ok(Get(request, "id", Null), ResultObject(e.result.value))
            && h.after == e.after
  {
  }

  /**
   * `initialize` with a context that has a length (a string, list or dict) binds `context`
   * and answers `{"status": "ok"}`.
   */
  lemma InitializeCompletes(rt: Runtime, line: string, durationMs: real, st: Snapshot)
    requires ParseRequest(rt, line).Success?
    requires var request := ParseRequest(rt, line).value;
             var params := Get(request, "params", Object(map[]));
             && request["method"] == String("initialize")
             && params.Object? && HasLen(Get(params.fields, "context", String("")))
    ensures var request := ParseRequest(rt, line).value;
            var context := Get(Get(request, "params", Object(map[])).fields, "context", String(""));
            var h := Handle(rt, line, durationMs, st);
            && h.response == Ok(Get(request, "id", Null), StatusOk)
            && h.after == st.(globals := st.globals["context" := Data(context)])
  {
  }

  /** `destroy` answers `{"status": "ok"}`, whatever its params, and empties the globals. */
  lemma DestroyCompletes(rt: Runtime, line: string, durationMs: real, st: Snapshot)
    requires ParseRequest(rt, line).Success?
    requires ParseRequest(rt, line).value["method"] == String("destroy")
    ensures var h := Handle(rt, line, durationMs, st);
            && h.response == Ok(Get(ParseRequest(rt, line).value, "id", Null), StatusOk)
            && h.after.globals == map[] && h.after.counter == st.counter
  {
  }

  /** Any other method fails with MethodNotFound, echoes the id and changes nothing. */
  lemma UnknownMethod(rt: Runtime, line: string, durationMs: real, st: Snapshot)
    requires ParseRequest(rt, line).Success?
    requires ParseRequest(rt, line).value["method"] !in {String("execute"), String("initialize"), String("destroy")}
    ensures var request := ParseRequest(rt, line).value;
            var h := Handle(rt, line, durationMs, st);
            && h.response == Err(Get(request, "id", Null),
                                 RpcError(MethodNotFound, "Method not found: " + Str(rt, Data(request["method"]))))
            && ErrorCode(h.response) == Some(MethodNotFound)
            && h.after == st
  {
  }

  /**
   * Absent params count as `{}`, so `execute` runs the empty program and `initialize`
   * binds the empty string.
   */
  lemma MissingParamsDefaults(rt: Runtime, line: string, durationMs: real, st: Snapshot)
    requires ParseRequest(rt, line).Success?
    requires "params" !in ParseRequest(rt, line).value
    ensures var request := ParseRequest(rt, line).value;
            var h := Handle(rt, line, durationMs, st);
            && (request["method"] == String("execute") ==>
                  h.after == ExecuteSpec(rt, st, String(""), durationMs).after)
            && (request["method"] == String("initialize") ==>
                  h.after == st.(globals := st.globals["context" := Data(String(""))]))
  {
  }

  /**
   * Failures after parsing are InternalError with the request's id echoed: params that is
   * not a dict, a code value that is not a string, a context without a length.
   */
  lemma InternalErrors(rt: Runtime, line: string, durationMs: real, st: Snapshot)
    requires ParseRequest(rt, line).Success?
    requires var request := ParseRequest(rt, line).value;
             var params := Get(request, "params", Object(map[]));
             && request["method"] in {String("execute"), String("initialize")}
             && (params.Object? ==>
                   if request["method"] == String("execute")
                   then !Get(params.fields, "code", String("")).String?
                   else !HasLen(Get(params.fields, "context", String(""))))
    ensures var request := ParseRequest(rt, line).value;
            var h := Handle(rt, line, durationMs, st);
            && ErrorCode(h.response) == Some(InternalError)
            && ReadResponse(h.response).value.id == Get(request, "id", Null)
            && h.after == st
  {
  }

  /** A request never disturbs the order of the bridge log. */
  lemma HandleKeepsLog(rt: Runtime, line: string, durationMs: real, st: Snapshot)
    requires BridgeLog(st)
    ensures BridgeLog(Handle(rt, line, durationMs, st).after)
  {
    if ParseRequest(rt, line).Success? {
      var request := ParseRequest(rt, line).value;
      var params := Get(request, "params", Object(map[]));
      var route := RouteOf(rt, request["method"], params);
      if route.ToExecute? {
        ExecuteKeepsLog(rt, st, route.code, durationMs);
      }
    }
  }
}
