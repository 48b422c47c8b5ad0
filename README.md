# rlm_sandbox in Dafny

A model of the Python sandbox of the RLM project (`packages/core/python/rlm_sandbox.py`). The sandbox is a
long-lived process that takes JSON-RPC 2.0 requests and runs code fragments against one persistent
global namespace. While a fragment runs, its `llm_query` and `rlm_query` callbacks can send requests back
to the host and wait for the replies.

The model has three parts.

- **Envelopes** (module `Protocol`): the error codes, `parse_jsonrpc_request` and `format_jsonrpc_response`.
  - A request line must decode, and it must be an object carrying `method`. Otherwise it fails with
    -32700 (ParseError) or -32600 (InvalidRequest). A decoder exception other than JSONDecodeError
    escapes the parser and is answered with -32603 (InternalError).
  - A response always has `"jsonrpc": "2.0"` and the given `id`, plus exactly one of `result` and `error`.
- **The sandbox** (module `Sandbox`): class `RlmSandbox` with `_globals`, `_bridge_counter` and the two host
  streams as fields.
  - Each operation is a method that changes those fields. A pure function on a `Snapshot` of the same
    state specifies it, and the method is proved equal to that function.
  - `_bridge_call` increments the counter, serialises and writes a request with id `bridge:<counter>`, and
    reads one reply. The callbacks return that reply's `result`.
  - `execute` evaluates a fragment statement by statement in a loop. It folds anything the fragment raises
    into the captured stderr.
  - `SandboxProperties` proves the properties:
    - the ids written are `bridge:n` with n strictly increasing and never above the counter, so they are
      distinct;
    - while every callback argument can be serialised, the k-th request carries `bridge:k`. An argument
      `json.dumps` rejects uses up an id without writing anything;
    - statements after a raise have no effect;
    - bindings persist between calls;
    - `destroy` removes the callbacks.
- **The dispatcher** (module `Dispatcher`): `handle_request` as a function `Handle` of the line and the
  sandbox state, and as a method `HandleRequest` on the object, proved to agree with it.
  - A request passes through Received → Parsed (`ParseRequest`) → Routed (`RouteOf`) → Completed or Failed.
  - `DispatcherProperties` proves which requests complete and which error codes the others get.
  - Parse and validation failures answer with a null id. Every later response echoes the request's `id`.

## Abstractions

- **The Python runtime.** `json.loads`, `str()` of values other than strings, and the interpreter make up
  `Interpreter.Runtime`, a value passed to every operation:
  - `loads` may fail with the exception the decoder raises: JSONDecodeError for text that is not JSON, or
    another exception such as RecursionError or ValueError;
  - `display` renders a value that is not a string;
  - `fragment` gives the statements the interpreter runs for a piece of source.
- **Code fragments.** A fragment is the sequence of its observable steps, `Interpreter.Stmt`:
  - assigning a global, copying one name's binding to another (`a = b`), and `del`eting a global;
  - `print(name)`, with `print` and `name` looked up as `exec` looks them up (below);
  - writing to stdout or stderr;
  - `target = llm_query(prompt)` and `target = rlm_query(task, ctx)`. Each argument is either a JSON value,
    or a value `json.dumps` rejects (`Interpreter.Arg`), recorded with its type name, whether it has a
    length, and the exception `json.dumps` raises for it;
  - raising an exception (which also stands for a syntax error).

  Names are looked up as `exec` looks them up: first in the globals, then in the builtins the fragment's
  frame was created with. Those are whatever `__builtins__` held when the fragment began
  (`Sandbox.BuiltinsOf`): the real builtins dict, which `exec` stores only when the name is unbound, or a
  value earlier code bound there. A dict bound there is indexed by the name, and a missing key is a
  NameError. Any other value is not subscriptable and raises TypeError (`Sandbox.FromBuiltins`). A call
  looks up its callee before its argument.

  A callback statement whose name resolves to the callback goes through the modelled `_bridge_call`. A
  name bound to the other callback, or to a data value, is called with the wrong arguments or is not
  callable, and raises TypeError.
- **Streams.** `_stdin` is the list of lines the host will write. `_stdout` is the list of bridge requests
  written, as JSON values.
- **Duration.** The clock reading is a parameter (`durationMs`).

## Behaviour of the code worth knowing

The model follows the code in each case.

- **`{"id": "x"}` without a method.** The error is answered with a null id, not `"x"`, because
  `request_id` is bound only after parsing succeeds (`DispatcherProperties.MissingMethodAnswersNullId`).
- **Callbacks after `destroy`.** `initialize` only writes `context`. After `destroy` the callbacks stay
  unbound for the rest of the sandbox's life (`SandboxProperties.DestroyRemovesCallbacks`).
- **`rlm_query` parameters.** `rlm_query` takes two required arguments and sends them as `task` and `ctx`.
- **The `execute` result.** The result has `stdout`, `stderr` and `duration`, and no `error` key.
- **Methods.** Only `execute`, `initialize` and `destroy` exist. Any other method, `get_variable`
  included, gets -32601.
- **Ids skipped.** `_bridge_call` advances the counter before `json.dumps` runs. An argument that cannot
  be serialised (a set, bytes) raises inside the fragment after using up an id, and the next request
  written skips that id (`SandboxProperties.UnserializableArgumentSkipsId`).
- **A global named `print`.** The fragment runs with the sandbox's globals as its scope, so a global
  named `print` shadows the builtin.
  - A data value there makes every later `print(...)` raise "not callable" (`SandboxProperties.ShadowedPrintRaises`).
  - With `print = llm_query`, `print(x)` sends `x` to the host as a prompt (`SandboxProperties.PrintReboundToLlmQuery`).
- **A rebound `__builtins__`.** `exec` stores the builtins dict only when `__builtins__` is unbound, so a
  fragment that rebinds it changes where later fragments find `print`.
  - After `__builtins__ = {}`, the next `print(...)` raises NameError for `print`; after `__builtins__ = 0`
    it raises TypeError (`SandboxProperties.RebindingBuiltinsHidesPrint`).
  - The fragment that does the rebinding still reaches the builtin `print` (`SandboxProperties.BuiltinsFixedPerFragment`).
- **Decoder exceptions.** Only JSONDecodeError is turned into -32700. Other exceptions from `json.loads`
  (RecursionError on deeply nested input, ValueError on an over-long integer) reach the handler's
  generic clause and are answered with -32603 and a null id.
- **Logging `len()` calls.** The logging lines call `len()` eagerly:
  - on a prompt or task without a length, `llm_query`/`rlm_query` raise TypeError before any request is sent;
  - on a reply result without a length (a number or null), they raise TypeError after the round trip.
- **Values the code does not expect.** The code's behaviour on them is kept:
  - `params` that is not a dict (for `execute`/`initialize`), `code` that is not a string, and `context`
    without a length all give -32603;
  - a list or dict `context` is accepted and bound;
  - a bridge reply that is not an object raises inside the fragment.

## Model

| member | source | states |
|---|---|---|
| `Protocol.ParseRequest` | packages/core/python/rlm_sandbox.py:60-92 | Succeeds iff the line decodes to an object with `method`, returning that object unchanged. A JSONDecodeError gives -32700 with "Parse error: " and the decoder's message. Any other decoder exception escapes as it was raised. A non-object gives -32600 "expected object". An object without `method` gives -32600 "missing method". |
| `Protocol.FormatResponse` | packages/core/python/rlm_sandbox.py:95-123 | The envelope's keys are exactly `jsonrpc`, `id` and one of `error`/`result`. `jsonrpc` is "2.0" and `id` is the argument, null included. `error` is present, holding the error dict, iff one is given; when `error` is None, `result` is present. |
| `Protocol.ReadFormatted` | packages/core/python/rlm_sandbox.py:111-123 | Reading a formatted response gives back its id and its one outcome (result or error). |
| `Protocol.FormatRead` | packages/core/python/rlm_sandbox.py:111-123 | Conversely, a readable envelope with no extra keys, whose `error` if any is a dict, is what FormatResponse builds from its parts. |
| `Sandbox.RlmSandbox.constructor` | packages/core/python/rlm_sandbox.py:141-150 | A new sandbox binds exactly `llm_query` and `rlm_query`, with counter 0 and nothing written. |
| `Sandbox.Dump` | packages/core/python/rlm_sandbox.py:207-212 | `json.dumps` of the params succeeds iff every entry serialises, and then keeps every key. Otherwise it raises the exception of the first entry, in insertion order, that does not serialise. |
| `Sandbox.BridgeCallSpec` | packages/core/python/rlm_sandbox.py:190-228 | A bridge call adds exactly one to the counter and leaves the globals alone. When the params serialise, it appends exactly one request, whose id is formed from the new counter, consumes one host line and returns that line's decoded reply. When they do not, it writes and reads nothing and raises what `json.dumps` raised. |
| `Sandbox.RlmSandbox.BridgeCall` | packages/core/python/rlm_sandbox.py:190-228 | The method increments `bridgeCounter`, serialises the params, and then appends the request with id `bridge:<counter>`. It consumes one host line ("" at end of stream) and returns the decoded reply. It agrees with BridgeCallSpec. |
| `Sandbox.ReplyValue` | packages/core/python/rlm_sandbox.py:220-228 | Succeeds iff the reply is an object without `error`. Its value is then `result`, or "" when `result` is absent. An `error` key raises RuntimeError "Bridge error: ...". |
| `Sandbox.LenChecked` | packages/core/python/rlm_sandbox.py:166 | `len(response)` passes a reply that has a length, and a raised exception, through unchanged. A result without a length raises TypeError. |
| `Sandbox.LlmQuerySpec` | packages/core/python/rlm_sandbox.py:152-168 | A prompt without a length raises TypeError with nothing sent. Otherwise the state is that of the bridge call `bridge:llm` with params `{prompt}`, and the returned value is that call's reply, passed through LenChecked. A returned value always has a length. |
| `Sandbox.RlmSandbox.LlmQuery` | packages/core/python/rlm_sandbox.py:152-168 | The `llm_query` closure on the object agrees with LlmQuerySpec. |
| `Sandbox.RlmQuerySpec` | packages/core/python/rlm_sandbox.py:170-188 | A task without a length raises TypeError with nothing sent. Otherwise the state is that of the bridge call `bridge:rlm` with params `{task, ctx}`, and the returned value is that call's reply, passed through LenChecked. A returned value always has a length. |
| `Sandbox.RlmSandbox.RlmQuery` | packages/core/python/rlm_sandbox.py:170-188 | The `rlm_query` closure on the object agrees with RlmQuerySpec. |
| `Sandbox.InitializeSpec` | packages/core/python/rlm_sandbox.py:230-239 | Succeeds iff the context has a length. It then adds `context` and leaves every other binding, the counter and the streams unchanged. On failure nothing changes. |
| `Sandbox.RlmSandbox.Initialize` | packages/core/python/rlm_sandbox.py:230-239 | The method agrees with InitializeSpec. |
| `Sandbox.Reply` | packages/core/python/rlm_sandbox.py:218-228 | What the decoder raises on the host's line passes through unchanged. The call succeeds iff the line decodes to an object without `error`. |
| `Sandbox.BuiltinsOf` | packages/core/python/rlm_sandbox.py:268 | The builtins a fragment resolves names in are the value bound to `__builtins__`, or the builtins dict when the name is unbound. |
| `Sandbox.FromBuiltins` | packages/core/python/rlm_sandbox.py:268 | Indexing a rebound `__builtins__` dict by a name gives its entry, or NameError when the key is missing. A value that is not a dict raises the TypeError of indexing it with a string. Only data values are found this way. |
| `Sandbox.Lookup` | packages/core/python/rlm_sandbox.py:268 | A name bound in the globals gives its value. Under the real builtins, an unbound name is a NameError. |
| `Sandbox.PrintCallee` | packages/core/python/rlm_sandbox.py:268 | A call of `print` reaches the builtin iff no global is named `print` and the builtins are the real ones. A global named `print` is what is called. |
| `Sandbox.Step` | packages/core/python/rlm_sandbox.py:268 | One statement under `exec` never shortens the captured stdout or stderr, and never clears a raised exception. |
| `Sandbox.Run` | packages/core/python/rlm_sandbox.py:266-271 | A fragment only appends to the captured texts, and nothing runs once an exception is raised. |
| `Sandbox.WithBuiltins` | packages/core/python/rlm_sandbox.py:268 | `exec` adds `__builtins__` to the globals, keeps every existing binding (a rebound `__builtins__` included), and stores the builtins dict only when the name was unbound. |
| `Sandbox.CodeFault` | packages/core/python/rlm_sandbox.py:252 | A code value that is not a string fails at `code[:50].replace(...)`: a list has no `replace`, a dict raises KeyError on the slice, and any other value is not subscriptable. |
| `Sandbox.DestroySpec` | packages/core/python/rlm_sandbox.py:291-293 | `destroy` leaves the globals empty and keeps the counter and both streams. |
| `Sandbox.ExecuteSpec` | packages/core/python/rlm_sandbox.py:241-289 | Succeeds exactly when the code is a string: exceptions inside the fragment never escape. Only a non-string code fails, and then nothing changes. |
| `Sandbox.RlmSandbox.Execute` | packages/core/python/rlm_sandbox.py:241-289 | The loop over the fragment's statements leaves the fields and the result that ExecuteSpec gives. That result includes the inserted `__builtins__` and the traceback appended on a raise. |
| `Sandbox.RlmSandbox.Destroy` | packages/core/python/rlm_sandbox.py:291-293 | Empties the globals and changes nothing else. |
| `Decimal.NatToString` | packages/core/python/rlm_sandbox.py:202 | The counter's text is a non-empty run of decimal digits, one digit exactly when the number is below 10. |
| `Decimal.ParseNatToString` | packages/core/python/rlm_sandbox.py:202 | Reading the counter's decimal text gives back the counter. |
| `Decimal.NatToStringInjective` | packages/core/python/rlm_sandbox.py:202 | Different counter values have different texts. |
| `SandboxProperties.BridgeIdInjective` | packages/core/python/rlm_sandbox.py:201-202 | `bridge:m` and `bridge:n` are equal only when m = n. |
| `SandboxProperties.BridgeIdsDistinct` | packages/core/python/rlm_sandbox.py:201-215 | In an ordered bridge log, all ids written are pairwise distinct. |
| `SandboxProperties.IdNumberOf` | packages/core/python/rlm_sandbox.py:202 | The id `bridge:<n>` reads back as n. |
| `SandboxProperties.DenseLogIsOrdered` | packages/core/python/rlm_sandbox.py:201-215 | A dense log, where the k-th request is `bridge:k` and the counter is the number written, is an ordered one. |
| `SandboxProperties.OrderedAppend` | packages/core/python/rlm_sandbox.py:201-215 | Appending the request `bridge:<counter+1>` to an ordered log, and counting it, keeps the log ordered. |
| `SandboxProperties.FirstBridgeId` | packages/core/python/rlm_sandbox.py:141-215 | A new sandbox's first bridge call sets the counter to 1. It writes exactly one request, with id `bridge:1`, when the params serialise. Otherwise it writes nothing and raises what `json.dumps` raised. |
| `SandboxProperties.FreshLog` | packages/core/python/rlm_sandbox.py:141-150 | A new sandbox starts with an empty bridge log, which is both dense and ordered. |
| `SandboxProperties.BridgeCallKeepsLog` | packages/core/python/rlm_sandbox.py:201-215 | A bridge call keeps the bridge log ordered, whether or not its params serialise. |
| `SandboxProperties.BridgeCallKeepsDenseLog` | packages/core/python/rlm_sandbox.py:201-215 | A bridge call whose params serialise keeps the bridge log dense. |
| `SandboxProperties.ReplyOfEnvelope` | packages/core/python/rlm_sandbox.py:222-228 | Host replies: a result reply returns the result, an error reply raises "Bridge error: ...", and a reply with neither returns "". |
| `SandboxProperties.DumpOne` | packages/core/python/rlm_sandbox.py:165 | The one-entry params of `llm_query` serialise to `{prompt}`, or raise the prompt's `json.dumps` exception. |
| `SandboxProperties.DumpTwo` | packages/core/python/rlm_sandbox.py:185 | The params `{task, ctx}` serialise task first: an unserialisable task raises its exception, even when ctx also fails. |
| `SandboxProperties.LlmQueryReturnsReply` | packages/core/python/test_rlm_sandbox.py:194-231 | `t = llm_query(p)` with the callback bound and a reply without `error` writes `bridge:<n+1>` with params `{prompt: p}` and consumes one host line. It binds the reply's `result` ("" when absent) to `t`, and nothing else changes. |
| `SandboxProperties.RlmQueryReturnsReply` | packages/core/python/test_rlm_sandbox.py:233-263 | `t = rlm_query(task, ctx)` writes `bridge:<n+1>` with params `{task, ctx}`, consumes one host line and binds the reply's `result` to `t`. |
| `SandboxProperties.LlmQueryErrorReply` | packages/core/python/rlm_sandbox.py:219-224 | A reply with `error` raises RuntimeError "Bridge error: ...". The request has been written and the line consumed, and `t` is not bound. |
| `SandboxProperties.RlmQueryUnserializable` | packages/core/python/rlm_sandbox.py:183-212 | `rlm_query` with a `ctx` that `json.dumps` rejects advances the counter and raises that exception. Nothing is written or read. |
| `SandboxProperties.LlmQueryWrites` | packages/core/python/rlm_sandbox.py:164-215 | `llm_query` with a serialisable prompt that has a length writes the request for the next id. |
| `SandboxProperties.StepKeepsLog` | packages/core/python/rlm_sandbox.py:152-228 | One statement keeps the bridge log ordered, whatever its arguments, including a callback round trip. |
| `SandboxProperties.RunKeepsLog` | packages/core/python/rlm_sandbox.py:266-268 | A whole fragment keeps the bridge log ordered: the ids written are `bridge:n` with n strictly increasing and at most the counter. |
| `SandboxProperties.StepKeepsDenseLog` | packages/core/python/rlm_sandbox.py:152-228 | One statement whose callback arguments serialise, and which neither prints nor copies `__builtins__`, keeps the bridge log dense. It also keeps the builtins dict bound under `__builtins__` only. |
| `SandboxProperties.PrintKeepsDenseLog` | packages/core/python/rlm_sandbox.py:164-215 | `print(x)` keeps the bridge log dense and the globals unchanged, even when `print` is `llm_query`. A data value sent serialises, and a callback is refused by `len()` before an id is used. |
| `SandboxProperties.RunKeepsDenseLog` | packages/core/python/rlm_sandbox.py:266-268 | A fragment keeps the bridge log dense when its callback arguments all serialise and the builtins dict is bound only under `__builtins__`: the k-th request written carries `bridge:k`, and the counter equals the number written. |
| `SandboxProperties.StepAppendsRequests` | packages/core/python/rlm_sandbox.py:201-216 | One statement appends at most one request to the host stream. It advances the counter by at most one, and by no less than the number of requests it appends. |
| `SandboxProperties.RunAppendsRequests` | packages/core/python/rlm_sandbox.py:201-216 | A fragment only appends requests, and the counter grows by at least the number appended. |
| `SandboxProperties.RunConcat` | packages/core/python/rlm_sandbox.py:266-271 | Running `a + b` is running `a`, then `b` from where `a` stopped. Once raised, nothing further runs. |
| `SandboxProperties.RunTwo` | packages/core/python/rlm_sandbox.py:266-268 | A fragment of two statements runs the first, then the second from where the first stopped. |
| `SandboxProperties.RunOne` | packages/core/python/rlm_sandbox.py:266-268 | A fragment of one statement does what that statement does. |
| `SandboxProperties.RunKeepsOtherBindings` | packages/core/python/rlm_sandbox.py:266-268 | A binding no statement assigns, copies to or deletes keeps its presence and its value. |
| `SandboxProperties.ExecuteFoldsRaise` | packages/core/python/rlm_sandbox.py:266-289 | When the code raises, `execute` still succeeds and the statements after the raise have no effect. The stderr is what was written plus the traceback. |
| `SandboxProperties.ExecuteKeepsLog` | packages/core/python/rlm_sandbox.py:241-289 | `execute` keeps the bridge log ordered, whatever its fragment passes to the callbacks. |
| `SandboxProperties.AssignmentPersists` | packages/core/python/test_rlm_sandbox.py:167-175 | `x = v` in one `execute` is what `print(x)` prints in the next, with nothing on stderr. This holds when the call reaches the builtin `print`: no global is named `print` and `__builtins__` is unbound or holds the builtins dict (as in a new sandbox), and `x` is neither `print` nor `__builtins__`. |
| `SandboxProperties.ContextVisible` | packages/core/python/test_rlm_sandbox.py:273-282 | After `initialize(c)`, `print(context)` prints `c`. This holds when no global is named `print` and `__builtins__` is unbound or holds the builtins dict (as in a new sandbox). |
| `SandboxProperties.ShadowedPrintRaises` | packages/core/python/rlm_sandbox.py:266-271 | After `print = v` in one `execute`, `print(print)` in the next prints nothing. Its stderr is the TypeError "'<type>' object is not callable". |
| `SandboxProperties.RebindingBuiltinsHidesPrint` | packages/core/python/rlm_sandbox.py:266-271 | After `__builtins__ = v` in one `execute`, `print(x)` in the next prints nothing. Its stderr is NameError for `print` when `v` is a dict without `print`, and the TypeError of indexing `v` otherwise. |
| `SandboxProperties.BuiltinsFixedPerFragment` | packages/core/python/rlm_sandbox.py:266-268 | A fragment that rebinds `__builtins__` still reaches the builtin `print` in its later statements. |
| `SandboxProperties.PrintReboundToLlmQuery` | packages/core/python/rlm_sandbox.py:164-215 | With `print = llm_query`, `print(x)` prints nothing and writes the request for the next id, with `x`'s value as the prompt. |
| `SandboxProperties.DestroyRemovesCallbacks` | packages/core/python/rlm_sandbox.py:291-293 | After `destroy`, calling `llm_query` raises NameError inside the fragment. No request is written, and only `__builtins__` is bound. |
| `SandboxProperties.UnserializableArgumentSkipsId` | packages/core/python/rlm_sandbox.py:201-215 | On a new sandbox, `rlm_query(task, ctx)` with an unserialisable `ctx` writes nothing, leaves the counter at 1 and folds the `json.dumps` exception into stderr. The next `llm_query`, in the next `execute`, is written as `bridge:2`. |
| `SandboxProperties.ExecuteRlmQueryUnserializable` | packages/core/python/rlm_sandbox.py:183-212 | An `execute` of `rlm_query(task, ctx)` with a `ctx` that `json.dumps` rejects returns empty stdout and that exception's traceback. Only the counter advances, and `__builtins__` is added. |
| `SandboxProperties.ExecuteLlmQueryWrites` | packages/core/python/rlm_sandbox.py:164-215 | An `execute` of `llm_query(prompt)`, with the callback bound, writes the request for the next id. |
| `SandboxProperties.DeleteUnbinds` | packages/core/python/rlm_sandbox.py:266-268 | Under the real builtins, after `del x`, `x` is unbound and `print(x)` raises NameError without printing. |
| `SandboxProperties.RebindingCallbackRaises` | packages/core/python/rlm_sandbox.py:170-188 | After `llm_query = rlm_query`, calling `llm_query(p)` raises TypeError for the missing `ctx`, and nothing is sent. |
| `SandboxProperties.CallLlmMismatch` | packages/core/python/rlm_sandbox.py:266-268 | Calling `llm_query` when the name is bound to anything but its callback raises the TypeError for that value. |
| `SandboxProperties.InitializeDestroyKeepLog` | packages/core/python/rlm_sandbox.py:230-293 | `initialize` and `destroy` keep the bridge log ordered, and dense when it was dense. `destroy` does not reset the counter. |
| `Dispatcher.RouteOf` | packages/core/python/rlm_sandbox.py:316-342 | `destroy` routes regardless of params. `execute`/`initialize` route iff params is a dict, with code and context defaulting to "". Any other method gives -32601, and non-dict params give -32603. |
| `Dispatcher.Reported` | packages/core/python/rlm_sandbox.py:344-355 | A JsonRpcError is answered as raised. Any other exception is answered as -32603 with its text. |
| `Dispatcher.Complete` | packages/core/python/rlm_sandbox.py:321-342 | The routed operation is answered under the request's id with one readable envelope. It completes iff the operation returns: `destroy` always, `execute` for string code, `initialize` for a context with a length. A rejected route is its error envelope and changes nothing. |
| `Dispatcher.Handle` | packages/core/python/rlm_sandbox.py:300-355 | Every line gets exactly one readable envelope. A failed parse answers with a null id and the reported error, and changes nothing. Otherwise the request's `id` (null when absent) is echoed. |
| `Dispatcher.HandleRequest` | packages/core/python/rlm_sandbox.py:300-355 | The method on the sandbox object gives the response and the new state that Handle gives. |
| `DispatcherProperties.ParseFailures` | packages/core/python/rlm_sandbox.py:73-92 | A JSONDecodeError is -32700, another decoder exception is -32603, and a validation failure is -32600. All answer with id null and leave the sandbox unchanged. |
| `DispatcherProperties.MissingMethodAnswersNullId` | packages/core/python/rlm_sandbox.py:311-349 | `{"id": x}` without a method is answered -32600 with id null, not x. |
| `DispatcherProperties.ExecuteCompletes` | packages/core/python/rlm_sandbox.py:321-324 | `execute` with string code succeeds. The result is `{stdout, stderr, duration}` under the request's id. |
| `DispatcherProperties.InitializeCompletes` | packages/core/python/rlm_sandbox.py:326-330 | `initialize` with a context that has a length (string, list or dict) answers `{"status":"ok"}` with the id echoed and binds `context`. |
| `DispatcherProperties.DestroyCompletes` | packages/core/python/rlm_sandbox.py:332-335 | `destroy` answers `{"status":"ok"}` with the id echoed. It empties the globals and keeps the counter. |
| `DispatcherProperties.UnknownMethod` | packages/core/python/rlm_sandbox.py:337-342 | Any other method answers -32601 "Method not found: ..." with the id echoed, and nothing changes. |
| `DispatcherProperties.MissingParamsDefaults` | packages/core/python/rlm_sandbox.py:317-327 | Absent params count as `{}`: `execute` runs the code "" and `initialize` binds "". |
| `DispatcherProperties.InternalErrors` | packages/core/python/rlm_sandbox.py:350-355 | Non-dict params, non-string code, and a context without a length each answer -32603 with the id echoed, and nothing changes. |
| `DispatcherProperties.HandleKeepsLog` | packages/core/python/rlm_sandbox.py:300-355 | No request disturbs the order of the bridge log. |

## Left out

- **JSON text.** The text form of JSON is left out: no serialisation, escaping or newline framing. Requests
  and responses are JSON values, and `json.loads` is the runtime's `loads`. NaN and infinite floats are not
  distinguished.
- **The interpreter.** `exec` of Python source is left out. A fragment is the fixed sequence of steps
  `Runtime.fragment` gives for the source. Consequences:
  - control flow that depends on values read at run time is not captured;
  - assigned values are JSON values, a copied binding, or a callback result;
  - a callback argument that `json.dumps` rejects is kept only as its type name, whether it has a
    length, and the exception `json.dumps` raises for it;
  - `bool(ctx)` in `rlm_query` is taken never to raise, which holds for every built-in type;
  - bindings change only through assignment, copying, `del` and the callbacks' targets. Writes through
    `globals()` and `import` are not represented;
  - the entries of the real builtins dict are functions and classes, which are not values of the model.
    Only a call of `print` reaches one. Reading any of them as a value is a NameError here: `f = len` and
    `print(print)` raise NameError, where Python binds or prints the builtin;
  - writing to stdout or stderr and raising an exception look up no names. Under a rebound `__builtins__`
    they behave as under the real one, where Python's lookups of `sys` or of the exception class would
    raise NameError or TypeError.
- **Output redirection.** The swapping of `sys.stdout`/`sys.stderr` and their restoration in `finally` are
  not modelled. The captured texts are fields of the evaluation.
- **Tracebacks.** Only the header and the final `Kind: message` line are modelled, not the stack frames.
- **Exception messages.** `str()` of values other than strings, and so the text of messages that embed
  them, comes from the runtime.
- **Python-version-dependent messages.** These messages are those of Python 3.12:
  - a dict `code` value (KeyError `slice(None, 50, None)`);
  - indexing a str or list with a string, in a bridge reply or as a rebound `__builtins__`;
  - `json.dumps` of the builtins dict, which fails on its `__loader__` entry with "Object of type type".
- **Exceptions outside `Exception`.** SystemExit and KeyboardInterrupt escape `except Exception` in both
  `execute` and `handle_request`, and so stop the server. The model treats every raised exception as an
  `Exception`.
- **Duration.** The `time.perf_counter` duration is a parameter.
- **Logging.** Logging output is not modelled; it has no effect on the protocol. The `len()` calls inside
  log messages are modelled because they can raise.
- **The server loop.** `run_server` is not part of this model: the loop over stdin, the skipping of blank
  lines, and the printing of responses.
- **`JsonRpcError.data`.** This field is never set by any caller and is left out.
- **`InvalidParams` (-32602).** The code declares it but never raises it.
- **Missing operations.** `get_variable`, batched queries and the context-search utilities do not exist in
  this source. A `get_variable` request takes the -32601 path.
