/**
 * The RlmSandbox class of rlm_sandbox.py: the persistent globals the evaluated code reads
 * and writes, the bridge correlation counter, and the two streams the bridge callbacks use
 * to reach the host. The pure functions describe each operation on a Snapshot of that
 * state; the class's methods change the fields in place and are proved to agree with them.
 */
module Sandbox {
  import opened Wrappers
  import opened JsonTypes
  import opened Interpreter
  import opened Decimal

  /**
   * The sandbox's state: `_globals`, `_bridge_counter`, the lines the host has yet to write
   * on `_stdin`, and the requests written so far on `_stdout`.
   */
  datatype Snapshot = Snapshot(
    globals: map<string, Value>,
    counter: nat,
    stdin: seq<string>,
    stdout: seq<Json>)

  /** What `execute` returns: captured output, captured diagnostics, and the duration. */
  datatype ExecResult = ExecResult(stdout: string, stderr: string, durationMs: real)

  /** The state after a bridge callback and what the callback returned or raised. */
  datatype Called = Called(after: Snapshot, reply: Result<Json, Fault>)

  /** A fragment's evaluation in progress: state, captured text, and the exception raised. */
  datatype Exec = Exec(snap: Snapshot, out: string, err: string, raised: Option<Fault>)

  datatype Executed = Executed(result: Result<ExecResult, Fault>, after: Snapshot)

  datatype Initialized = Initialized(raised: Option<Fault>, after: Snapshot)

  /** The state `__init__` leaves: the two callbacks bound, no bridge call made yet. */
  function Fresh(hostLines: seq<string>): Snapshot
  {
    Snapshot(map["llm_query" := LlmQueryFn, "rlm_query" := RlmQueryFn], 0, hostLines, [])
  }

  // ---------------------------------------------------------------------------------------
  // Bridge calls
  // ---------------------------------------------------------------------------------------

  /** The correlation id of the n-th bridge call: `f"bridge:{n}"`. */
  function BridgeId(n: nat): string
  {
    "bridge:" + NatToString(n)
  }

  /** The request `_bridge_call` writes for its n-th call. */
  function BridgeRequest(n: nat, name: string, params: map<string, Json>): Json
  {
    Object(map["jsonrpc" := String("2.0"), "id" := String(BridgeId(n)),
               "method" := String(name), "params" := Object(params)])
  }

  function RequestId(v: Json): Json
  {
    if v.Object? && "id" in v.fields then v.fields["id"] else Null
  }

  /** Python's `t in s` on two strings. */
  function Contains(s: string, t: string): bool
    decreases |s|
  {
    if |s| < |t| then false else s[..|t|] == t || Contains(s[1..], t)
  }

  /**
   * `json.dumps` of the params dict: the entries are serialised in insertion order and the
   * first one that cannot be raises; a later entry with the same key replaces an earlier one.
   */
  function Dump(params: seq<(string, Arg)>): (r: Result<map<string, Json>, Fault>)
    ensures r.Success? <==> forall i :: 0 <= i < |params| ==> params[i].1.Plain?
    ensures r.Failure? ==>
              exists i :: 0 <= i < |params| && !params[i].1.Plain? && r.error == params[i].1.dumpsFault
                          && forall j :: 0 <= j < i ==> params[j].1.Plain?
    ensures r.Success? ==> forall i :: 0 <= i < |params| ==> params[i].0 in r.value
    decreases |params|
  {
    if params == [] then Success(map[])
    else
      var last := params[|params| - 1];
      match Dump(params[..|params| - 1])
      case Failure(f) => Failure(f)
      case Success(m) =>
        if last.1.Plain? then Success(m[last.0 := last.1.json]) else Failure(last.1.dumpsFault)
  }

  /**
   * What `_bridge_call` makes of the decoded reply: an object without `error` yields its
   * `result` (default ""); an object with `error` raises RuntimeError; any other value
   * fails when the code probes it with `in`, `[...]` or `.get`.
   */
  function ReplyValue(rt: Runtime, v: Json): (r: Result<Json, Fault>)
    ensures r.Success? <==> v.Object? && "error" !in v.fields
    ensures r.Success? ==> r.value == Get(v.fields, "result", String(""))
    ensures v.Object? && "error" in v.fields ==>
              r == Failure(Fault("RuntimeError", "Bridge error: " + Str(rt, Data(v.fields["error"]))))
  {
    match v
    case Object(f) =>
      if "error" in f then
        Failure(Fault("RuntimeError", "Bridge error: " + Str(rt, Data(f["error"]))))
      else
        Success(Get(f, "result", String("")))
    case String(s) =>
      if Contains(s, "error") then Failure(NotSubscriptable(v))
      else Failure(NoAttribute(v, "get"))
    case Array(items) =>
      if String("error") in items then
        Failure(NotSubscriptable(v))
      else Failure(NoAttribute(v, "get"))
    case _ => Failure(Fault("TypeError", "argument of type '" + TypeName(v) + "' is not iterable"))
  }

  /**
   * Decoding the line read back from the host, then applying the reply rule: what the
   * decoder raises passes through unchanged, and only an object without `error` succeeds.
   */
  function Reply(rt: Runtime, line: string): (r: Result<Json, Fault>)
    ensures rt.loads(line).Failure? ==> r == Failure(rt.loads(line).error)
    ensures r.Success? <==> rt.loads(line).Success? && rt.loads(line).value.Object? &&
                            "error" !in rt.loads(line).value.fields
  {
    match rt.loads(line)
    case Failure(f) => Failure(f)
    case Success(v) => ReplyValue(rt, v)
  }

  /** What `readline` gives: the host's next line, or "" once the stream is exhausted. */
  function NextLine(lines: seq<string>): string
  {
    if lines == [] then "" else lines[0]
  }

  /** The host's lines left after one `readline`. */
  function Rest(lines: seq<string>): seq<string>
  {
    if lines == [] then [] else lines[1..]
  }

  /**
   * `_bridge_call`: count the call, serialise the request with the new id, write it, read
   * one line and decode the reply. The counter is advanced before `json.dumps` runs, so a
   * parameter it rejects uses up an id without anything being written or read.
   */
  function BridgeCallSpec(rt: Runtime, st: Snapshot, name: string, params: seq<(string, Arg)>): (c: Called)
    ensures c.after.counter == st.counter + 1
    ensures c.after.globals == st.globals
    ensures Dump(params).Failure? ==> c == Called(st.(counter := st.counter + 1), Failure(Dump(params).error))
    ensures Dump(params).Success? ==>
              && c.after.stdout == st.stdout + [BridgeRequest(c.after.counter, name, Dump(params).value)]
              && c.after.stdin == Rest(st.stdin)
              && c.reply == Reply(rt, NextLine(st.stdin))
  {
    var n := st.counter + 1;
    match Dump(params)
    case Failure(f) => Called(st.(counter := n), Failure(f))
    case Success(p) =>
      Called(st.(counter := n, stdin := Rest(st.stdin), stdout := st.stdout + [BridgeRequest(n, name, p)]),
             Reply(rt, NextLine(st.stdin)))
  }

  /**
   * The `len(response)` in the callbacks' logging line: a result without a length raises
   * TypeError there, after the round trip; any other outcome is passed on unchanged.
   */
  function LenChecked(r: Result<Json, Fault>): (s: Result<Json, Fault>)
    ensures s.Success? <==> r.Success? && HasLen(r.value)
    ensures s.Success? || r.Failure? ==> s == r
    ensures r.Success? && !HasLen(r.value) ==> s == Failure(NoLen(TypeName(r.value)))
  {
    if r.Success? && !HasLen(r.value) then Failure(NoLen(TypeName(r.value))) else r
  }

  /**
   * The `llm_query` closure: `len(prompt)` is taken (for logging) before the call, then the
   * bridge call is made and its result returned once `len(response)` has been taken.
   */
  function LlmQuerySpec(rt: Runtime, st: Snapshot, prompt: Arg): (c: Called)
    ensures !ArgHasLen(prompt) ==> c == Called(st, Failure(NoLen(ArgTypeName(prompt))))
    ensures ArgHasLen(prompt) ==>
              var b := BridgeCallSpec(rt, st, "bridge:llm", [("prompt", prompt)]);
              c.after == b.after && c.reply == LenChecked(b.reply)
    ensures c.reply.Success? ==> HasLen(c.reply.value)
  {
    if !ArgHasLen(prompt) then Called(st, Failure(NoLen(ArgTypeName(prompt))))
    else
      var b := BridgeCallSpec(rt, st, "bridge:llm", [("prompt", prompt)]);
      Called(b.after, LenChecked(b.reply))
  }

  /**
   * The `rlm_query` closure: as `llm_query`, with `task` measured and `{task, ctx}` sent
   * (`ctx` is only tested for truth, which cannot fail for these values).
   */
  function RlmQuerySpec(rt: Runtime, st: Snapshot, task: Arg, ctx: Arg): (c: Called)
    ensures !ArgHasLen(task) ==> c == Called(st, Failure(NoLen(ArgTypeName(task))))
    ensures ArgHasLen(task) ==>
              var b := BridgeCallSpec(rt, st, "bridge:rlm", [("task", task), ("ctx", ctx)]);
              c.after == b.after && c.reply == LenChecked(b.reply)
    ensures c.reply.Success? ==> HasLen(c.reply.value)
  {
    if !ArgHasLen(task) then Called(st, Failure(NoLen(ArgTypeName(task))))
    else
      var b := BridgeCallSpec(rt, st, "bridge:rlm", [("task", task), ("ctx", ctx)]);
      Called(b.after, LenChecked(b.reply))
  }

  // ---------------------------------------------------------------------------------------
  // Evaluating a fragment
  // ---------------------------------------------------------------------------------------

  /**
   * What calling a bound value raises when it is not the callback the statement names:
   * a data value or the builtins dict is not callable, and the other callback (bound to
   * the name by a `Copy`) takes a different number of arguments.
   */
  function CalleeMismatch(v: Value): Fault
  {
    match v
    case Data(j) => Fault("TypeError", "'" + TypeName(j) + "' object is not callable")
    case BuiltinsDict => Fault("TypeError", "'dict' object is not callable")
    case RlmQueryFn =>
      Fault("TypeError", "RlmSandbox._make_rlm_query.<locals>.rlm_query() missing 1 required positional argument: 'ctx'")
    case LlmQueryFn =>
      Fault("TypeError", "RlmSandbox._make_llm_query.<locals>.llm_query() takes 1 positional argument but 2 were given")
  }

  /**
   * The value a global holds, passed as an argument: a data value as it is; a callback,
   * which has no length and no JSON encoding; or the builtins dict, which has a length but
   * whose first entry `json.dumps` cannot encode is `__loader__`, a class.
   */
  function ArgOf(v: Value): Arg
  {
    match v
    case Data(j) => Plain(j)
    case BuiltinsDict => Unserializable("dict", true, NotSerializable("type"))
    case _ => Unserializable("function", false, NotSerializable("function"))
  }

  /** Records what a callback whose result is not bound raised, if anything. */
  function Discarded(x: Exec, c: Called): Exec
  {
    x.(snap := c.after, raised := if c.reply.Failure? then Some(c.reply.error) else x.raised)
  }

  /** Binds a callback's result to `target`, or records what it raised. */
  function Assigned(x: Exec, target: string, c: Called): Exec
  {
    match c.reply
    case Success(v) => x.(snap := c.after.(globals := c.after.globals[target := Data(v)]))
    case Failure(f) => x.(snap := c.after, raised := Some(f))
  }

  /**
   * The builtins a fragment evaluated against globals `g` resolves names in. `exec` stores
   * the builtins dict under `__builtins__` only when that name is unbound, and the frame it
   * creates takes whatever the name then holds; a rebinding inside the fragment therefore
   * takes effect from the next fragment on.
   */
  function BuiltinsOf(g: map<string, Value>): (b: Value)
    ensures "__builtins__" in g ==> b == g["__builtins__"]
    ensures "__builtins__" !in g ==> b == BuiltinsDict
  {
    WithBuiltins(g)["__builtins__"]
  }

  /**
   * `builtins[name]` on the builtins a fragment resolves names in. A dict bound there by
   * earlier code is indexed by the name, a missing key being a NameError; any other value is
   * not subscriptable. The entries of the real builtins dict are functions and classes,
   * which are not values of the model: reading one as a value is a NameError here.
   */
  function FromBuiltins(home: Value, name: string): (r: Result<Value, Fault>)
    ensures r.Success? ==> r.value.Data?
    ensures home.Data? && home.json.Object? ==>
              r == if name in home.json.fields then Success(Data(home.json.fields[name])) else Failure(NameError(name))
    ensures home.Data? && !home.json.Object? ==> r == Failure(NotSubscriptable(home.json))
  {
    match home
    case BuiltinsDict => Failure(NameError(name))
    case Data(Object(m)) => if name in m then Success(Data(m[name])) else Failure(NameError(name))
    case Data(j) => Failure(NotSubscriptable(j))
    case _ => Failure(Fault("TypeError", "'function' object is not subscriptable"))
  }

  /** A name read in a fragment: the globals first, then the builtins. */
  function Lookup(g: map<string, Value>, home: Value, name: string): (r: Result<Value, Fault>)
    ensures name in g ==> r == Success(g[name])
    ensures name !in g && home == BuiltinsDict ==> r == Failure(NameError(name))
  {
    if name in g then Success(g[name]) else FromBuiltins(home, name)
  }

  /** What a call to `print` reaches: the builtin, which is not a value of the model, or a bound value. */
  datatype Callee = BuiltinPrint | Bound(v: Value)

  /** The `print` a statement calls: a global of that name, else the builtins' `print`. */
  function PrintCallee(g: map<string, Value>, home: Value): (r: Result<Callee, Fault>)
    ensures r == Success(BuiltinPrint) <==> "print" !in g && home == BuiltinsDict
    ensures "print" in g ==> r == Success(Bound(g["print"]))
  {
    if "print" in g then Success(Bound(g["print"]))
    else if home == BuiltinsDict then Success(BuiltinPrint)
    else
      match FromBuiltins(home, "print")
      case Success(v) => Success(Bound(v))
      case Failure(f) => Failure(f)
  }

  /**
   * One statement, evaluated with `_globals` as its global scope and `home` as its builtins.
   * A call looks up its callee before its argument. Captured text is only ever appended to,
   * and an exception once raised stays raised.
   */
  function Step(rt: Runtime, home: Value, x: Exec, s: Stmt): (r: Exec)
    ensures x.out <= r.out && x.err <= r.err
    ensures x.raised.Some? ==> r.raised.Some?
  {
    var g := x.snap.globals;
    match s
    case Assign(name, v) => x.(snap := x.snap.(globals := g[name := Data(v)]))
    case Copy(name, source) =>
      (match Lookup(g, home, source)
       case Success(v) => x.(snap := x.snap.(globals := g[name := v]))
       case Failure(f) => x.(raised := Some(f)))
    case Delete(name) =>
      if name in g then x.(snap := x.snap.(globals := g - {name})) else x.(raised := Some(NameError(name)))
    case PrintVar(name) =>
      (match PrintCallee(g, home)
       case Failure(f) => x.(raised := Some(f))
       case Success(callee) =>
         match Lookup(g, home, name)
         case Failure(f) => x.(raised := Some(f))
         case Success(v) =>
           if callee.BuiltinPrint? then x.(out := x.out + Str(rt, v) + "\n")
           else if callee.v == LlmQueryFn then Discarded(x, LlmQuerySpec(rt, x.snap, ArgOf(v)))
           else x.(raised := Some(CalleeMismatch(callee.v))))
    case WriteOut(t) => x.(out := x.out + t)
    case WriteErr(t) => x.(err := x.err + t)
    case CallLlm(target, prompt) =>
      (match Lookup(g, home, "llm_query")
       case Failure(f) => x.(raised := Some(f))
       case Success(callee) =>
         if callee != LlmQueryFn then x.(raised := Some(CalleeMismatch(callee)))
         else Assigned(x, target, LlmQuerySpec(rt, x.snap, prompt)))
    case CallRlm(target, task, ctx) =>
      (match Lookup(g, home, "rlm_query")
       case Failure(f) => x.(raised := Some(f))
       case Success(callee) =>
         if callee != RlmQueryFn then x.(raised := Some(CalleeMismatch(callee)))
         else Assigned(x, target, RlmQuerySpec(rt, x.snap, task, ctx)))
    case Raise(kind, message) => x.(raised := Some(Fault(kind, message)))
  }

  /**
   * Statements run in order until one raises; the rest are not run. Captured text is only
   * ever appended to.
   */
  function Run(rt: Runtime, home: Value, x: Exec, ss: seq<Stmt>): (r: Exec)
    ensures x.out <= r.out && x.err <= r.err
    ensures x.raised.Some? ==> r == x
    decreases |ss|
  {
    if ss == [] || x.raised.Some? then x else Run(rt, home, Step(rt, home, x, ss[0]), ss[1..])
  }

  /** `exec` stores the builtins dict in the globals it is given unless one is there. */
  function WithBuiltins(g: map<string, Value>): (r: map<string, Value>)
    ensures r.Keys == g.Keys + {"__builtins__"}
    ensures forall n :: n in g ==> r[n] == g[n]
    ensures "__builtins__" !in g ==> r["__builtins__"] == BuiltinsDict
  {
    if "__builtins__" in g then g else g["__builtins__" := BuiltinsDict]
  }

  /** The text `traceback.print_exc` adds to the captured stderr, if anything was raised. */
  function Diagnostic(raised: Option<Fault>): string
  {
    if raised.Some? then TracebackText(raised.value) else ""
  }

  /**
   * What `code[:50].replace('\n', ' ')` raises for a code value that is not a string: a
   * list slices and then has no `replace`, a dict fails on the slice key (as Python 3.12
   * and later report it), and any other value cannot be subscripted.
   */
  function CodeFault(code: Json): (f: Fault)
    requires !code.String?
    ensures code.Array? <==> f == NoAttribute(code, "replace")
    ensures code.Object? <==> f.kind == "KeyError"
    ensures !code.Array? && !code.Object? ==> f.message == "'" + TypeName(code) + "' object is not subscriptable"
  {
    match code
    case Array(_) => NoAttribute(code, "replace")
    case Object(_) => Fault("KeyError", "slice(None, 50, None)")
    case Null => NotSubscriptable(code)
    case Bool(_) => NotSubscriptable(code)
    case Int(_) => NotSubscriptable(code)
    case Float(_) => NotSubscriptable(code)
  }

  /** The evaluation a fragment starts from: the globals with `__builtins__` in place, nothing captured. */
  function Start(st: Snapshot): Exec
  {
    Exec(st.(globals := WithBuiltins(st.globals)), "", "", None)
  }

  /**
   * `execute`: code that is a string is evaluated against the persistent globals and always
   * returns captured text, an exception being folded into stderr; only a non-string code
   * value raises, before anything changes.
   */
  function ExecuteSpec(rt: Runtime, st: Snapshot, code: Json, durationMs: real): (e: Executed)
    ensures e.result.Success? <==> code.String?
    ensures e.result.Failure? ==> e.after == st
  {
    if !code.String? then Executed(Failure(CodeFault(code)), st)
    else
      var x := Run(rt, BuiltinsOf(st.globals), Start(st), rt.fragment(code.s));
      Executed(Success(ExecResult(x.out, x.err + Diagnostic(x.raised), durationMs)), x.snap)
  }

  /**
   * `initialize(context)`: `len(context)` must be defined; then `context` is bound and no
   * other binding, nor anything else, changes.
   */
  function InitializeSpec(st: Snapshot, context: Json): (i: Initialized)
    ensures i.raised.None? <==> HasLen(context)
    ensures i.raised.Some? ==> i.after == st
    ensures i.raised.None? ==>
              && i.after.globals.Keys == st.globals.Keys + {"context"}
              && i.after.globals["context"] == Data(context)
              && (forall n :: n in st.globals && n != "context" ==> i.after.globals[n] == st.globals[n])
              && i.after == st.(globals := i.after.globals)
  {
    if !HasLen(context) then Initialized(Some(NoLen(TypeName(context))), st)
    else Initialized(None, st.(globals := st.globals["context" := Data(context)]))
  }

  /** `destroy`: `_globals.clear()`; the counter and the streams are untouched. */
  function DestroySpec(st: Snapshot): (r: Snapshot)
    ensures r.globals == map[]
    ensures r.counter == st.counter && r.stdin == st.stdin && r.stdout == st.stdout
  {
    st.(globals := map[])
  }

  // ---------------------------------------------------------------------------------------
  // The class
  // ---------------------------------------------------------------------------------------

  class RlmSandbox {
    var globals: map<string, Value>
    var bridgeCounter: nat
    /** The host's lines still to be read by bridge calls. */
    var stdin: seq<string>
    /** The bridge requests written to the host, in order. */
    var stdout: seq<Json>

    function State(): Snapshot
      reads this
    {
      Snapshot(globals, bridgeCounter, stdin, stdout)
    }

    constructor (hostLines: seq<string>)
      ensures State() == Fresh(hostLines)
      ensures globals.Keys == {"llm_query", "rlm_query"} && bridgeCounter == 0
    {
      globals := map[];
      bridgeCounter := 0;
      stdin := hostLines;
      stdout := [];
      new;
      globals := globals["llm_query" := LlmQueryFn];
      globals := globals["rlm_query" := RlmQueryFn];
    }

    method BridgeCall(rt: Runtime, name: string, params: seq<(string, Arg)>) returns (reply: Result<Json, Fault>)
      modifies this
      ensures bridgeCounter == old(bridgeCounter) + 1
      ensures globals == old(globals)
      ensures Called(State(), reply) == BridgeCallSpec(rt, old(State()), name, params)
    {
      bridgeCounter := bridgeCounter + 1;
      var request := Dump(params);
      if request.Failure? {
        return Failure(request.error);
      }
      stdout := stdout + [BridgeRequest(bridgeCounter, name, request.value)];
      var line := "";
      if stdin != [] {
        line := stdin[0];
        stdin := stdin[1..];
      }
      reply := Reply(rt, line);
    }

    method LlmQuery(rt: Runtime, prompt: Arg) returns (reply: Result<Json, Fault>)
      modifies this
      ensures Called(State(), reply) == LlmQuerySpec(rt, old(State()), prompt)
    {
      if !ArgHasLen(prompt) {
        return Failure(NoLen(ArgTypeName(prompt)));
      }
      reply := BridgeCall(rt, "bridge:llm", [("prompt", prompt)]);
      if reply.Success? && !HasLen(reply.value) {
        reply := Failure(NoLen(TypeName(reply.value)));
      }
    }

    method RlmQuery(rt: Runtime, task: Arg, ctx: Arg) returns (reply: Result<Json, Fault>)
      modifies this
      ensures Called(State(), reply) == RlmQuerySpec(rt, old(State()), task, ctx)
    {
      if !ArgHasLen(task) {
        return Failure(NoLen(ArgTypeName(task)));
      }
      reply := BridgeCall(rt, "bridge:rlm", [("task", task), ("ctx", ctx)]);
      if reply.Success? && !HasLen(reply.value) {
        reply := Failure(NoLen(TypeName(reply.value)));
      }
    }

    method Initialize(context: Json) returns (raised: Option<Fault>)
      modifies this
      ensures Initialized(raised, State()) == InitializeSpec(old(State()), context)
    {
      if !HasLen(context) {
        return Some(NoLen(TypeName(context)));
      }
      globals := globals["context" := Data(context)];
      raised := None;
    }

    method Execute(rt: Runtime, code: Json, durationMs: real) returns (r: Result<ExecResult, Fault>)
      modifies this
      ensures Executed(r, State()) == ExecuteSpec(rt, old(State()), code, durationMs)
    {
      if !code.String? {
        return Failure(CodeFault(code));
      }
      var home := BuiltinsOf(globals);
      globals := WithBuiltins(globals);
      var ss := rt.fragment(code.s);
      var out, err, raised: Option<Fault> := "", "", None;
      ghost var start := Exec(State(), out, err, raised);
      var i := 0;
      while i < |ss| && raised.None?
        invariant i <= |ss|
        invariant Run(rt, home, Exec(State(), out, err, raised), ss[i..]) == Run(rt, home, start, ss)
      {
        ghost var before := Exec(State(), out, err, raised);
        match ss[i] {
          case Assign(name, v) =>
            globals := globals[name := Data(v)];
          case Copy(name, source) =>
            var v := Lookup(globals, home, source);
            if v.Success? {
              globals := globals[name := v.value];
            } else {
              raised := Some(v.error);
            }
          case Delete(name) =>
            if name in globals {
              globals := globals - {name};
            } else {
              raised := Some(NameError(name));
            }
          case PrintVar(name) =>
            var callee := PrintCallee(globals, home);
            var v := Lookup(globals, home, name);
            if callee.Failure? {
              raised := Some(callee.error);
            } else if v.Failure? {
              raised := Some(v.error);
            } else if callee.value.BuiltinPrint? {
              out := out + Str(rt, v.value) + "\n";
            } else if callee.value.v == LlmQueryFn {
              var reply := LlmQuery(rt, ArgOf(v.value));
              if reply.Failure? {
                raised := Some(reply.error);
              }
            } else {
              raised := Some(CalleeMismatch(callee.value.v));
            }
          case WriteOut(t) =>
            out := out + t;
          case WriteErr(t) =>
            err := err + t;
          case CallLlm(target, prompt) =>
            var callee := Lookup(globals, home, "llm_query");
            if callee.Failure? {
              raised := Some(callee.error);
            } else if callee.value != LlmQueryFn {
              raised := Some(CalleeMismatch(callee.value));
            } else {
              var reply := LlmQuery(rt, prompt);
              if reply.Success? {
                globals := globals[target := Data(reply.value)];
              } else {
                raised := Some(reply.error);
              }
            }
          case CallRlm(target, task, ctx) =>
            var callee := Lookup(globals, home, "rlm_query");
            if callee.Failure? {
              raised := Some(callee.error);
            } else if callee.value != RlmQueryFn {
              raised := Some(CalleeMismatch(callee.value));
            } else {
              var reply := RlmQuery(rt, task, ctx);
              if reply.Success? {
                globals := globals[target := Data(reply.value)];
              } else {
                raised := Some(reply.error);
              }
            }
          case Raise(kind, message) =>
            raised := Some(Fault(kind, message));
        }
        assert Exec(State(), out, err, raised) == Step(rt, home, before, ss[i]);
        assert ss[i..][1..] == ss[i + 1..];
        i := i + 1;
      }
      r := Success(ExecResult(out, err + Diagnostic(raised), durationMs));
    }

    method Destroy()
      modifies this
      ensures State() == DestroySpec(old(State()))
      ensures globals == map[]
    {
      globals := map[];
    }
  }
}
