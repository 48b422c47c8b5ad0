/**
 * Properties of the sandbox operations: the bridge correlation ids, the fold of exceptions
 * into stderr, the persistence of bindings between calls, and what destroy leaves.
 */
module SandboxProperties {
  import opened Wrappers
  import opened JsonTypes
  import opened Interpreter
  import opened Decimal
  import opened Sandbox

  // ---------------------------------------------------------------------------------------
  // Correlation ids
  // ---------------------------------------------------------------------------------------

  /** The counter value `n` of a request whose id is `bridge:<n>` (0, never a bridge id's, otherwise). */
  function IdNumber(v: Json): nat
  {
    match RequestId(v)
    case String(s) => if |s| > 7 && s[..7] == "bridge:" then ParseNat(s[7..]) else 0
    case _ => 0
  }

  /**
   * The bridge log is ordered: every request written carries an id `bridge:<n>` with
   * 1 <= n <= counter, and the n grow strictly along the log. (A call whose parameters
   * `json.dumps` rejects uses up an n without writing, so the log may skip some.)
   */
  ghost predicate BridgeLog(st: Snapshot)
  {
    OrderedLog(st.stdout, st.counter)
  }

  ghost predicate OrderedLog(log: seq<Json>, counter: nat)
  {
    && |log| <= counter
    && (forall k :: 0 <= k < |log| ==>
          RequestId(log[k]) == String(BridgeId(IdNumber(log[k]))) && 1 <= IdNumber(log[k]) <= counter)
    && (forall k, l :: 0 <= k < l < |log| ==> IdNumber(log[k]) < IdNumber(log[l]))
  }

  /**
   * The dense bridge log: the k-th request written (from 1) carries `bridge:k` and the
   * counter is the number of requests written. It holds as long as every bridge call's
   * parameters can be serialised.
   */
  ghost predicate DenseLog(st: Snapshot)
  {
    && |st.stdout| == st.counter
    && forall k :: 0 <= k < |st.stdout| ==> RequestId(st.stdout[k]) == String(BridgeId(k + 1))
  }

  /** Two bridge calls with different counter values never share an id. */
  lemma BridgeIdInjective(m: nat, n: nat)
    ensures BridgeId(m) == BridgeId(n) ==> m == n
  {
    if BridgeId(m) == BridgeId(n) {
      assert BridgeId(m)[7..] == NatToString(m);
      assert BridgeId(n)[7..] == NatToString(n);
      NatToStringInjective(m, n);
    }
  }

  /** The id `bridge:<n>` reads back as n. */
  lemma IdNumberOf(v: Json, n: nat)
    requires RequestId(v) == String(BridgeId(n))
    ensures IdNumber(v) == n
  {
    var s := BridgeId(n);
    assert s[..7] == "bridge:";
    assert s[7..] == NatToString(n);
    ParseNatToString(n);
  }

  /** In an ordered bridge log the ids written are pairwise distinct. */
  lemma BridgeIdsDistinct(st: Snapshot)
    requires BridgeLog(st)
    ensures forall i, j :: 0 <= i < j < |st.stdout| ==> RequestId(st.stdout[i]) != RequestId(st.stdout[j])
  {
    forall i, j | 0 <= i < j < |st.stdout|
      ensures RequestId(st.stdout[i]) != RequestId(st.stdout[j])
    {
      assert IdNumber(st.stdout[i]) < IdNumber(st.stdout[j]);
    }
  }

  /** A dense log is an ordered one. */
  lemma DenseLogIsOrdered(st: Snapshot)
    requires DenseLog(st)
    ensures BridgeLog(st)
  {
    forall k | 0 <= k < |st.stdout|
      ensures IdNumber(st.stdout[k]) == k + 1
    {
      IdNumberOf(st.stdout[k], k + 1);
    }
  }

  /**
   * A new sandbox's first bridge call uses n = 1: it writes exactly the request `bridge:1`
   * when the parameters serialise, and otherwise writes nothing and raises what
   * `json.dumps` raised.
   */
  lemma FirstBridgeId(rt: Runtime, hostLines: seq<string>, name: string, params: seq<(string, Arg)>)
    ensures var c := BridgeCallSpec(rt, Fresh(hostLines), name, params);
            && c.after.counter == 1
            && (Dump(params).Success? ==>
                  && c.after.stdout == [BridgeRequest(1, name, Dump(params).value)]
                  && RequestId(c.after.stdout[0]) == String("bridge:1"))
            && (Dump(params).Failure? ==>
                  c.after.stdout == [] && c.reply == Failure(Dump(params).error))
  {
    assert NatToString(1) == "1";
  }

  /** A new sandbox starts with an empty, hence dense and ordered, bridge log. */
  lemma FreshLog(hostLines: seq<string>)
    ensures DenseLog(Fresh(hostLines)) && BridgeLog(Fresh(hostLines))
  {
  }

  /** Appending the request for the next counter value keeps a log ordered. */
  lemma OrderedAppend(log: seq<Json>, counter: nat, request: Json)
    requires OrderedLog(log, counter)
    requires RequestId(request) == String(BridgeId(counter + 1))
    ensures OrderedLog(log + [request], counter + 1)
  {
    IdNumberOf(request, counter + 1);
    var log' := log + [request];
    forall k | 0 <= k < |log'|
      ensures RequestId(log'[k]) == String(BridgeId(IdNumber(log'[k]))) && 1 <= IdNumber(log'[k]) <= counter + 1
    {
      if k < |log| {
        assert log'[k] == log[k];
      }
    }
    forall k, l | 0 <= k < l < |log'|
      ensures IdNumber(log'[k]) < IdNumber(log'[l])
    {
      assert log'[k] == log[k];
      if l < |log| {
        assert log'[l] == log[l];
      }
    }
  }

  /** Using up a counter value without writing keeps a log ordered. */
  lemma OrderedSkip(log: seq<Json>, counter: nat)
    requires OrderedLog(log, counter)
    ensures OrderedLog(log, counter + 1)
  {
  }

  /** A bridge call keeps the bridge log ordered. */
  lemma BridgeCallKeepsLog(rt: Runtime, st: Snapshot, name: string, params: seq<(string, Arg)>)
    requires BridgeLog(st)
    ensures BridgeLog(BridgeCallSpec(rt, st, name, params).after)
  {
    var after := BridgeCallSpec(rt, st, name, params).after;
    if Dump(params).Success? {
      OrderedAppend(st.stdout, st.counter, BridgeRequest(st.counter + 1, name, Dump(params).value));
    } else {
      OrderedSkip(st.stdout, st.counter);
    }
  }

  /** A bridge call whose parameters serialise keeps the bridge log dense. */
  lemma BridgeCallKeepsDenseLog(rt: Runtime, st: Snapshot, name: string, params: seq<(string, Arg)>)
    requires DenseLog(st) && Dump(params).Success?
    ensures DenseLog(BridgeCallSpec(rt, st, name, params).after)
  {
    var log := BridgeCallSpec(rt, st, name, params).after.stdout;
    assert log == st.stdout + [BridgeRequest(st.counter + 1, name, Dump(params).value)];
    forall k | 0 <= k < |log|
      ensures RequestId(log[k]) == String(BridgeId(k + 1))
    {
      if k < |st.stdout| {
        assert log[k] == st.stdout[k];
      }
    }
  }

  /** The bridge reply rule, read from the host's side: a result reply is returned, an error reply raises. */
  lemma ReplyOfEnvelope(rt: Runtime, id: Json, result: Json, error: Json)
    ensures ReplyValue(rt, Object(map["jsonrpc" := String("2.0"), "id" := id, "result" := result])) == Success(result)
    ensures ReplyValue(rt, Object(map["jsonrpc" := String("2.0"), "id" := id, "error" := error])) ==
            Failure(Fault("RuntimeError", "Bridge error: " + Str(rt, Data(error))))
    ensures ReplyValue(rt, Object(map["jsonrpc" := String("2.0"), "id" := id])) == Success(String(""))
  {
  }

  // ---------------------------------------------------------------------------------------
  // Running a fragment
  // ---------------------------------------------------------------------------------------

  /**
   * A statement whose callback arguments, if any, `json.dumps` can serialise. `print(name)`
   * may reach `llm_query` when `print` is rebound to it, and `__builtins__` is the one
   * global whose value cannot be serialised, so it is neither printed nor copied.
   */
  predicate Serializable(s: Stmt)
  {
    match s
    case CallLlm(_, prompt) => prompt.Plain?
    case CallRlm(_, task, ctx) => task.Plain? && ctx.Plain?
    case Copy(_, source) => source != "__builtins__"
    case PrintVar(name) => name != "__builtins__"
    case _ => true
  }

  /** The builtins dict is bound under `__builtins__` and under no other name. */
  predicate BuiltinsAtHome(g: map<string, Value>)
  {
    forall n :: n in g && g[n] == BuiltinsDict ==> n == "__builtins__"
  }

  /** One statement keeps the bridge log ordered. */
  lemma StepKeepsLog(rt: Runtime, home: Value, x: Exec, s: Stmt)
    requires BridgeLog(x.snap)
    ensures BridgeLog(Step(rt, home, x, s).snap)
  {
    match s
    case PrintVar(name) =>
      var v := Lookup(x.snap.globals, home, name);
      if v.Success? {
        BridgeCallKeepsLog(rt, x.snap, "bridge:llm", [("prompt", ArgOf(v.value))]);
      }
    case CallLlm(_, prompt) => BridgeCallKeepsLog(rt, x.snap, "bridge:llm", [("prompt", prompt)]);
    case CallRlm(_, task, ctx) => BridgeCallKeepsLog(rt, x.snap, "bridge:rlm", [("task", task), ("ctx", ctx)]);
    case _ =>
  }

  /** One statement with serialisable arguments keeps the bridge log dense. */
  lemma StepKeepsDenseLog(rt: Runtime, home: Value, x: Exec, s: Stmt)
    requires DenseLog(x.snap) && Serializable(s) && BuiltinsAtHome(x.snap.globals)
    ensures DenseLog(Step(rt, home, x, s).snap) && BuiltinsAtHome(Step(rt, home, x, s).snap.globals)
  {
    match s
    case PrintVar(name) => PrintKeepsDenseLog(rt, home, x, name);
    case CallLlm(_, prompt) => BridgeCallKeepsDenseLog(rt, x.snap, "bridge:llm", [("prompt", prompt)]);
    case CallRlm(_, task, ctx) =>
      BridgeCallKeepsDenseLog(rt, x.snap, "bridge:rlm", [("task", task), ("ctx", ctx)]);
    case _ =>
  }

  /**
   * `print(name)` keeps the bridge log dense: when `print` is `llm_query`, the value sent
   * is a data value, which serialises, or a callback, which has no length and is refused
   * before any id is used.
   */
  lemma PrintKeepsDenseLog(rt: Runtime, home: Value, x: Exec, name: string)
    requires DenseLog(x.snap) && name != "__builtins__" && BuiltinsAtHome(x.snap.globals)
    ensures DenseLog(Step(rt, home, x, PrintVar(name)).snap)
    ensures Step(rt, home, x, PrintVar(name)).snap.globals == x.snap.globals
  {
    var v := Lookup(x.snap.globals, home, name);
    if v.Success? && ArgOf(v.value).Plain? {
      DumpOne("prompt", ArgOf(v.value));
      BridgeCallKeepsDenseLog(rt, x.snap, "bridge:llm", [("prompt", ArgOf(v.value))]);
    }
  }

  /** A whole fragment keeps the bridge log ordered. */
  lemma {:induction false} RunKeepsLog(rt: Runtime, home: Value, x: Exec, ss: seq<Stmt>)
    requires BridgeLog(x.snap)
    ensures BridgeLog(Run(rt, home, x, ss).snap)
    decreases |ss|
  {
    if ss != [] && x.raised.None? {
      StepKeepsLog(rt, home, x, ss[0]);
      RunKeepsLog(rt, home, Step(rt, home, x, ss[0]), ss[1..]);
    }
  }

  /**
   * A fragment whose callback arguments all serialise keeps the bridge log dense: the
   * k-th request written carries `bridge:k`.
   */
  lemma {:induction false} RunKeepsDenseLog(rt: Runtime, home: Value, x: Exec, ss: seq<Stmt>)
    requires DenseLog(x.snap) && BuiltinsAtHome(x.snap.globals)
    requires forall i :: 0 <= i < |ss| ==> Serializable(ss[i])
    ensures DenseLog(Run(rt, home, x, ss).snap)
    decreases |ss|
  {
    if ss != [] && x.raised.None? {
      StepKeepsDenseLog(rt, home, x, ss[0]);
      RunKeepsDenseLog(rt, home, Step(rt, home, x, ss[0]), ss[1..]);
    }
  }

  /**
   * One statement appends at most one request, and advances the counter by at most one
   * and by no less than it appends.
   */
  lemma StepAppendsRequests(rt: Runtime, home: Value, x: Exec, s: Stmt)
    ensures var y := Step(rt, home, x, s).snap;
            && x.snap.stdout <= y.stdout
            && |y.stdout| - |x.snap.stdout| <= y.counter - x.snap.counter <= 1
  {
    match s
    case PrintVar(name) =>
      var v := Lookup(x.snap.globals, home, name);
      if v.Success? {
        var c := LlmQuerySpec(rt, x.snap, ArgOf(v.value));
        assert c.after.stdout == x.snap.stdout || c.after.stdout[..|x.snap.stdout|] == x.snap.stdout;
      }
    case CallLlm(target, prompt) =>
      var c := LlmQuerySpec(rt, x.snap, prompt);
      assert c.after.stdout == x.snap.stdout || c.after.stdout[..|x.snap.stdout|] == x.snap.stdout;
    case CallRlm(target, task, ctx) =>
      var c := RlmQuerySpec(rt, x.snap, task, ctx);
      assert c.after.stdout == x.snap.stdout || c.after.stdout[..|x.snap.stdout|] == x.snap.stdout;
    case _ =>
  }

  /**
   * A fragment only appends to the bridge log, and the counter grows by at least the
   * number of requests it wrote.
   */
  lemma {:induction false} RunAppendsRequests(rt: Runtime, home: Value, x: Exec, ss: seq<Stmt>)
    ensures var y := Run(rt, home, x, ss).snap;
            && x.snap.stdout <= y.stdout
            && |y.stdout| - |x.snap.stdout| <= y.counter - x.snap.counter
    decreases |ss|
  {
    if ss != [] && x.raised.None? {
      StepAppendsRequests(rt, home, x, ss[0]);
      RunAppendsRequests(rt, home, Step(rt, home, x, ss[0]), ss[1..]);
    }
  }

  /** `json.dumps` of the one-entry params of `llm_query`. */
  lemma DumpOne(k: string, a: Arg)
    ensures Dump([(k, a)]) == if a.Plain? then Success(map[k := a.json]) else Failure(a.dumpsFault)
  {
    assert [(k, a)][..0] == [];
  }

  /** `json.dumps` of the two-entry params of `rlm_query`: the first entry is serialised first. */
  lemma DumpTwo(k1: string, a1: Arg, k2: string, a2: Arg)
    ensures Dump([(k1, a1), (k2, a2)]) ==
            if !a1.Plain? then Failure(a1.dumpsFault)
            else if !a2.Plain? then Failure(a2.dumpsFault)
            else Success(map[k1 := a1.json, k2 := a2.json])
  {
    assert [(k1, a1), (k2, a2)][..1] == [(k1, a1)];
    DumpOne(k1, a1);
  }

  /**
   * `target = llm_query(prompt)` with the callback bound and a host reply carrying no
   * `error`: the request `bridge:<n + 1>` with params `{prompt}` is written, one host line
   * is consumed, and the reply's `result` ("" when absent) is bound to `target`.
   */
  lemma LlmQueryReturnsReply(rt: Runtime, home: Value, x: Exec, target: string, prompt: Json, reply: map<string, Json>)
    requires "llm_query" in x.snap.globals && x.snap.globals["llm_query"] == LlmQueryFn
    requires HasLen(prompt)
    requires x.snap.stdin != [] && rt.loads(x.snap.stdin[0]) == Success(Object(reply))
    requires "error" !in reply && HasLen(Get(reply, "result", String("")))
    ensures var y := Step(rt, home, x, CallLlm(target, Plain(prompt)));
            && y == x.(snap := y.snap)
            && y.snap.globals == x.snap.globals[target := Data(Get(reply, "result", String("")))]
            && y.snap.counter == x.snap.counter + 1
            && y.snap.stdout == x.snap.stdout + [BridgeRequest(x.snap.counter + 1, "bridge:llm", map["prompt" := prompt])]
            && y.snap.stdin == x.snap.stdin[1..]
  {
    DumpOne("prompt", Plain(prompt));
  }

  /**
   * `target = rlm_query(task, ctx)` with the callback bound and a host reply carrying no
   * `error`: the request with params `{task, ctx}` is written and the reply's `result` is
   * bound to `target`.
   */
  lemma RlmQueryReturnsReply(rt: Runtime, home: Value, x: Exec, target: string, task: Json, ctx: Json, reply: map<string, Json>)
    requires "rlm_query" in x.snap.globals && x.snap.globals["rlm_query"] == RlmQueryFn
    requires HasLen(task)
    requires x.snap.stdin != [] && rt.loads(x.snap.stdin[0]) == Success(Object(reply))
    requires "error" !in reply && HasLen(Get(reply, "result", String("")))
    ensures var y := Step(rt, home, x, CallRlm(target, Plain(task), Plain(ctx)));
            && y == x.(snap := y.snap)
            && y.snap.globals == x.snap.globals[target := Data(Get(reply, "result", String("")))]
            && y.snap.counter == x.snap.counter + 1
            && y.snap.stdout == x.snap.stdout +
                 [BridgeRequest(x.snap.counter + 1, "bridge:rlm", map["task" := task, "ctx" := ctx])]
            && y.snap.stdin == x.snap.stdin[1..]
  {
    DumpTwo("task", Plain(task), "ctx", Plain(ctx));
  }

  /**
   * A host reply carrying `error` makes `llm_query` raise RuntimeError after the request
   * was written and the line consumed; `target` is not bound.
   */
  lemma LlmQueryErrorReply(rt: Runtime, home: Value, x: Exec, target: string, prompt: Json, reply: map<string, Json>)
    requires "llm_query" in x.snap.globals && x.snap.globals["llm_query"] == LlmQueryFn
    requires HasLen(prompt)
    requires x.snap.stdin != [] && rt.loads(x.snap.stdin[0]) == Success(Object(reply))
    requires "error" in reply
    ensures var y := Step(rt, home, x, CallLlm(target, Plain(prompt)));
            && y.raised == Some(Fault("RuntimeError", "Bridge error: " + Str(rt, Data(reply["error"]))))
            && y.snap.globals == x.snap.globals
            && y.snap.stdout == x.snap.stdout + [BridgeRequest(x.snap.counter + 1, "bridge:llm", map["prompt" := prompt])]
            && y.snap.stdin == x.snap.stdin[1..]
  {
    DumpOne("prompt", Plain(prompt));
  }

  /** A one-statement fragment is that statement's step. */
  lemma RunOne(rt: Runtime, home: Value, x: Exec, s: Stmt)
    requires x.raised.None?
    ensures Run(rt, home, x, [s]) == Step(rt, home, x, s)
  {
    assert Run(rt, home, x, [s]) == Run(rt, home, Step(rt, home, x, s), []);
  }

  /** A two-statement fragment is the first statement's step, then the second. */
  lemma RunTwo(rt: Runtime, home: Value, x: Exec, a: Stmt, b: Stmt)
    requires x.raised.None?
    ensures Run(rt, home, x, [a, b]) == Run(rt, home, Step(rt, home, x, a), [b])
  {
    assert [a, b][1..] == [b];
  }

  /** `rlm_query(task, ctx)` with a `ctx` that `json.dumps` rejects counts the call, then raises. */
  lemma RlmQueryUnserializable(rt: Runtime, home: Value, x: Exec, target: string, task: Json, ctx: Arg)
    requires "rlm_query" in x.snap.globals && x.snap.globals["rlm_query"] == RlmQueryFn
    requires HasLen(task) && ctx.Unserializable?
    ensures Step(rt, home, x, CallRlm(target, Plain(task), ctx)) ==
            x.(snap := x.snap.(counter := x.snap.counter + 1), raised := Some(ctx.dumpsFault))
  {
    DumpTwo("task", Plain(task), "ctx", ctx);
  }

  /** `llm_query(prompt)` with a serialisable prompt writes the request for the next id. */
  lemma LlmQueryWrites(rt: Runtime, home: Value, x: Exec, target: string, prompt: Json)
    requires "llm_query" in x.snap.globals && x.snap.globals["llm_query"] == LlmQueryFn
    requires HasLen(prompt)
    ensures Step(rt, home, x, CallLlm(target, Plain(prompt))).snap.stdout ==
            x.snap.stdout + [BridgeRequest(x.snap.counter + 1, "bridge:llm", map["prompt" := prompt])]
  {
    DumpOne("prompt", Plain(prompt));
  }

  /**
   * An argument `json.dumps` rejects uses up a correlation id: `rlm_query(task, ctx)` with
   * such a `ctx` on a new sandbox raises what `json.dumps` raised and writes nothing, and
   * the next call, in the next `execute`, is written as `bridge:2`.
   */
  lemma UnserializableArgumentSkipsId(rt: Runtime, hostLines: seq<string>, first: string, second: string,
                                      task: string, ctx: Arg, prompt: string, d1: real, d2: real)
    requires ctx.Unserializable?
    requires rt.fragment(first) == [CallRlm("a", Plain(String(task)), ctx)]
    requires rt.fragment(second) == [CallLlm("b", Plain(String(prompt)))]
    ensures var e1 := ExecuteSpec(rt, Fresh(hostLines), String(first), d1);
            var e2 := ExecuteSpec(rt, e1.after, String(second), d2);
            && e1.result.Success? && e1.result.value.stderr == TracebackText(ctx.dumpsFault)
            && e1.after.stdout == [] && e1.after.counter == 1
            && e2.after.stdout == [BridgeRequest(2, "bridge:llm", map["prompt" := String(prompt)])]
            && RequestId(e2.after.stdout[0]) == String("bridge:2")
  {
    ExecuteRlmQueryUnserializable(rt, Fresh(hostLines), first, "a", String(task), ctx, d1);
    var e1 := ExecuteSpec(rt, Fresh(hostLines), String(first), d1);
    ExecuteLlmQueryWrites(rt, e1.after, second, "b", String(prompt), d2);
    assert NatToString(2) == "2";
  }

  /**
   * An `execute` of `target = rlm_query(task, ctx)` with a `ctx` that `json.dumps` rejects
   * folds that exception into stderr and only advances the counter.
   */
  lemma ExecuteRlmQueryUnserializable(rt: Runtime, st: Snapshot, code: string, target: string,
                                      task: Json, ctx: Arg, durationMs: real)
    requires "rlm_query" in st.globals && st.globals["rlm_query"] == RlmQueryFn && HasLen(task)
    requires ctx.Unserializable? && rt.fragment(code) == [CallRlm(target, Plain(task), ctx)]
    ensures var e := ExecuteSpec(rt, st, String(code), durationMs);
            && e.result == Success(ExecResult("", TracebackText(ctx.dumpsFault), durationMs))
            && e.after == st.(globals := WithBuiltins(st.globals), counter := st.counter + 1)
  {
    RunOne(rt, BuiltinsOf(st.globals), Start(st), CallRlm(target, Plain(task), ctx));
    RlmQueryUnserializable(rt, BuiltinsOf(st.globals), Start(st), target, task, ctx);
    assert "" + TracebackText(ctx.dumpsFault) == TracebackText(ctx.dumpsFault);
  }

  /** An `execute` of `target = llm_query(prompt)` writes the request for the next id. */
  lemma ExecuteLlmQueryWrites(rt: Runtime, st: Snapshot, code: string, target: string, prompt: Json, durationMs: real)
    requires "llm_query" in st.globals && st.globals["llm_query"] == LlmQueryFn && HasLen(prompt)
    requires rt.fragment(code) == [CallLlm(target, Plain(prompt))]
    ensures ExecuteSpec(rt, st, String(code), durationMs).after.stdout ==
            st.stdout + [BridgeRequest(st.counter + 1, "bridge:llm", map["prompt" := prompt])]
  {
    RunOne(rt, BuiltinsOf(st.globals), Start(st), CallLlm(target, Plain(prompt)));
    LlmQueryWrites(rt, BuiltinsOf(st.globals), Start(st), target, prompt);
  }

  /** `del name` unbinds the name: a following `print(name)` raises NameError. */
  lemma DeleteUnbinds(rt: Runtime, x: Exec, name: string)
    requires x.raised.None? && name in x.snap.globals
    ensures var y := Run(rt, BuiltinsDict, x, [Delete(name), PrintVar(name)]);
            && name !in y.snap.globals
            && y.raised == Some(NameError(name))
            && y.out == x.out
  {
    RunTwo(rt, BuiltinsDict, x, Delete(name), PrintVar(name));
    RunOne(rt, BuiltinsDict, Step(rt, BuiltinsDict, x, Delete(name)), PrintVar(name));
  }

  /**
   * `llm_query = rlm_query`, then `llm_query(prompt)`: the rebound callback is called with
   * one argument too few and raises TypeError before anything is sent.
   */
  lemma RebindingCallbackRaises(rt: Runtime, home: Value, x: Exec, target: string, prompt: Arg)
    requires x.raised.None? && "rlm_query" in x.snap.globals && x.snap.globals["rlm_query"] == RlmQueryFn
    ensures var y := Run(rt, home, x, [Copy("llm_query", "rlm_query"), CallLlm(target, prompt)]);
            && y.raised == Some(Fault("TypeError",
                 "RlmSandbox._make_rlm_query.<locals>.rlm_query() missing 1 required positional argument: 'ctx'"))
            && y.snap.stdout == x.snap.stdout && y.snap.counter == x.snap.counter
  {
    var y1 := x.(snap := x.snap.(globals := x.snap.globals["llm_query" := RlmQueryFn]));
    assert Step(rt, home, x, Copy("llm_query", "rlm_query")) == y1;
    RunTwo(rt, home, x, Copy("llm_query", "rlm_query"), CallLlm(target, prompt));
    RunOne(rt, home, y1, CallLlm(target, prompt));
    CallLlmMismatch(rt, home, y1, target, prompt);
  }

  /** Calling `llm_query` when the name is bound to something other than its callback raises. */
  lemma CallLlmMismatch(rt: Runtime, home: Value, x: Exec, target: string, prompt: Arg)
    requires "llm_query" in x.snap.globals && x.snap.globals["llm_query"] != LlmQueryFn
    ensures Step(rt, home, x, CallLlm(target, prompt)) == x.(raised := Some(CalleeMismatch(x.snap.globals["llm_query"])))
  {
  }

  /** Running `a + b` is running `a`, then `b` from where `a` stopped. */
  lemma {:induction false} RunConcat(rt: Runtime, home: Value, x: Exec, a: seq<Stmt>, b: seq<Stmt>)
    ensures Run(rt, home, x, a + b) == Run(rt, home, Run(rt, home, x, a), b)
    decreases |a|
  {
    if a == [] {
      assert a + b == b;
    } else if x.raised.None? {
      assert (a + b)[0] == a[0];
      assert (a + b)[1..] == a[1..] + b;
      RunConcat(rt, home, Step(rt, home, x, a[0]), a[1..], b);
    }
  }

  /** The names a statement may bind or unbind. */
  function TargetOf(s: Stmt): set<string>
  {
    match s
    case Assign(name, _) => {name}
    case Copy(name, _) => {name}
    case Delete(name) => {name}
    case CallLlm(target, _) => {target}
    case CallRlm(target, _, _) => {target}
    case _ => {}
  }

  function Targets(ss: seq<Stmt>): set<string>
    decreases |ss|
  {
    if ss == [] then {} else TargetOf(ss[0]) + Targets(ss[1..])
  }

  /** A binding no statement of the fragment assigns or deletes is left exactly as it was. */
  lemma {:induction false} RunKeepsOtherBindings(rt: Runtime, home: Value, x: Exec, ss: seq<Stmt>, n: string)
    requires n !in Targets(ss)
    ensures var g := Run(rt, home, x, ss).snap.globals;
            (n in g <==> n in x.snap.globals) && (n in g ==> g[n] == x.snap.globals[n])
    decreases |ss|
  {
    if ss != [] && x.raised.None? {
      RunKeepsOtherBindings(rt, home, Step(rt, home, x, ss[0]), ss[1..], n);
    }
  }

  // ---------------------------------------------------------------------------------------
  // execute, initialize, destroy
  // ---------------------------------------------------------------------------------------

  /**
   * An exception raised by the code does not escape `execute`: the call succeeds, the
   * statements after the raise have no effect, and the traceback closes the captured stderr.
   */
  lemma ExecuteFoldsRaise(rt: Runtime, st: Snapshot, code: string, durationMs: real,
                          before: seq<Stmt>, kind: string, message: string, after: seq<Stmt>)
    requires rt.fragment(code) == before + [Raise(kind, message)] + after
    requires Run(rt, BuiltinsOf(st.globals), Start(st), before).raised.None?
    ensures var x := Run(rt, BuiltinsOf(st.globals), Start(st), before);
            var e := ExecuteSpec(rt, st, String(code), durationMs);
            && e.result.Success?
            && e.result.value.stdout == x.out
            && e.result.value.stderr == x.err + TracebackText(Fault(kind, message))
            && e.after == x.snap
  {
    var home := BuiltinsOf(st.globals);
    RunConcat(rt, home, Start(st), before + [Raise(kind, message)], after);
    RunConcat(rt, home, Start(st), before, [Raise(kind, message)]);
  }

  /** Executing keeps the bridge log in order. */
  lemma ExecuteKeepsLog(rt: Runtime, st: Snapshot, code: Json, durationMs: real)
    requires BridgeLog(st)
    ensures BridgeLog(ExecuteSpec(rt, st, code, durationMs).after)
  {
    if code.String? {
      RunKeepsLog(rt, BuiltinsOf(st.globals), Start(st), rt.fragment(code.s));
    }
  }

  /**
   * A binding one `execute` makes is what the next `execute` prints (`x = 42`, then
   * `print(x)`), as long as the call reaches the builtin `print`: no global shadows it and
   * `__builtins__` is not rebound.
   */
  lemma AssignmentPersists(rt: Runtime, st: Snapshot, first: string, second: string,
                           name: string, v: Json, d1: real, d2: real)
    requires "print" !in st.globals && BuiltinsOf(st.globals) == BuiltinsDict
    requires name != "print" && name != "__builtins__"
    requires rt.fragment(first) == [Assign(name, v)]
    requires rt.fragment(second) == [PrintVar(name)]
    ensures var e1 := ExecuteSpec(rt, st, String(first), d1);
            var e2 := ExecuteSpec(rt, e1.after, String(second), d2);
            && name in e1.after.globals && e1.after.globals[name] == Data(v)
            && e2.result.value.stdout == Str(rt, Data(v)) + "\n"
            && e2.result.value.stderr == ""
  {
    RunOne(rt, BuiltinsDict, Start(st), Assign(name, v));
    var e1 := ExecuteSpec(rt, st, String(first), d1);
    assert BuiltinsOf(e1.after.globals) == BuiltinsDict;
    RunOne(rt, BuiltinsDict, Start(e1.after), PrintVar(name));
  }

  /**
   * The context `initialize` binds is what `print(context)` prints afterwards, as long as the
   * call reaches the builtin `print`.
   */
  lemma ContextVisible(rt: Runtime, st: Snapshot, context: string, code: string, durationMs: real)
    requires "print" !in st.globals && BuiltinsOf(st.globals) == BuiltinsDict
    requires rt.fragment(code) == [PrintVar("context")]
    ensures var i := InitializeSpec(st, String(context));
            var e := ExecuteSpec(rt, i.after, String(code), durationMs);
            && i.raised.None?
            && e.result.value.stdout == context + "\n"
  {
    var i := InitializeSpec(st, String(context));
    assert BuiltinsOf(i.after.globals) == BuiltinsDict;
    RunOne(rt, BuiltinsDict, Start(i.after), PrintVar("context"));
  }

  /**
   * A global named `print` shadows the builtin: after `print = v` in one `execute`,
   * `print(print)` in the next prints nothing and raises TypeError, as the value is not
   * callable.
   */
  lemma ShadowedPrintRaises(rt: Runtime, st: Snapshot, first: string, second: string,
                            v: Json, d1: real, d2: real)
    requires rt.fragment(first) == [Assign("print", v)]
    requires rt.fragment(second) == [PrintVar("print")]
    ensures var e1 := ExecuteSpec(rt, st, String(first), d1);
            var e2 := ExecuteSpec(rt, e1.after, String(second), d2);
            && e2.result.value.stdout == ""
            && e2.result.value.stderr == TracebackText(Fault("TypeError", "'" + TypeName(v) + "' object is not callable"))
  {
    RunOne(rt, BuiltinsOf(st.globals), Start(st), Assign("print", v));
    var e1 := ExecuteSpec(rt, st, String(first), d1);
    var y0 := Start(e1.after);
    assert y0.snap.globals["print"] == Data(v);
    RunOne(rt, BuiltinsOf(e1.after.globals), y0, PrintVar("print"));
  }

  /**
   * Rebinding `__builtins__` takes the builtin `print` away from later fragments: after
   * `__builtins__ = v` in one `execute`, `print(name)` in the next prints nothing. It raises
   * NameError when `v` is a dict without `print`, and what indexing `v` raises otherwise.
   */
  lemma RebindingBuiltinsHidesPrint(rt: Runtime, st: Snapshot, first: string, second: string,
                                    v: Json, name: string, d1: real, d2: real)
    requires "print" !in st.globals && !(v.Object? && "print" in v.fields)
    requires rt.fragment(first) == [Assign("__builtins__", v)]
    requires rt.fragment(second) == [PrintVar(name)]
    ensures var e1 := ExecuteSpec(rt, st, String(first), d1);
            var e2 := ExecuteSpec(rt, e1.after, String(second), d2);
            && e2.result.value.stdout == ""
            && e2.result.value.stderr == TracebackText(if v.Object? then NameError("print") else NotSubscriptable(v))
  {
    RunOne(rt, BuiltinsOf(st.globals), Start(st), Assign("__builtins__", v));
    var e1 := ExecuteSpec(rt, st, String(first), d1);
    assert BuiltinsOf(e1.after.globals) == Data(v);
    RunOne(rt, Data(v), Start(e1.after), PrintVar(name));
  }

  /**
   * The builtins are fixed when a fragment starts: a fragment that rebinds `__builtins__`
   * still reaches the builtin `print` in its later statements.
   */
  lemma BuiltinsFixedPerFragment(rt: Runtime, x: Exec, v: Json, name: string)
    requires x.raised.None? && "print" !in x.snap.globals
    requires name in x.snap.globals && name != "__builtins__"
    ensures var y := Run(rt, BuiltinsDict, x, [Assign("__builtins__", v), PrintVar(name)]);
            && y.out == x.out + Str(rt, x.snap.globals[name]) + "\n"
            && y.raised.None?
  {
    RunTwo(rt, BuiltinsDict, x, Assign("__builtins__", v), PrintVar(name));
    RunOne(rt, BuiltinsDict, Step(rt, BuiltinsDict, x, Assign("__builtins__", v)), PrintVar(name));
  }

  /**
   * With `print = llm_query`, `print(name)` is a bridge call: the value of `name` is sent as
   * the prompt, nothing is printed, and the reply is discarded.
   */
  lemma PrintReboundToLlmQuery(rt: Runtime, home: Value, x: Exec, name: string, prompt: Json)
    requires "print" in x.snap.globals && x.snap.globals["print"] == LlmQueryFn
    requires name in x.snap.globals && x.snap.globals[name] == Data(prompt) && HasLen(prompt)
    ensures var y := Step(rt, home, x, PrintVar(name));
            && y.out == x.out
            && y.snap.globals == x.snap.globals
            && y.snap.stdout == x.snap.stdout + [BridgeRequest(x.snap.counter + 1, "bridge:llm", map["prompt" := prompt])]
  {
    DumpOne("prompt", Plain(prompt));
  }

  /**
   * After `destroy` the callbacks are gone: calling `llm_query` raises NameError inside the
   * evaluation, no bridge request is written, and only `__builtins__` is bound.
   */
  lemma DestroyRemovesCallbacks(rt: Runtime, st: Snapshot, code: string, durationMs: real,
                                target: string, prompt: Arg)
    requires rt.fragment(code) == [CallLlm(target, prompt)]
    ensures var e := ExecuteSpec(rt, DestroySpec(st), String(code), durationMs);
            && e.result.Success?
            && e.result.value.stderr == TracebackText(NameError("llm_query"))
            && e.after.stdout == st.stdout && e.after.counter == st.counter
            && e.after.globals == map["__builtins__" := BuiltinsDict]
  {
    RunOne(rt, BuiltinsDict, Start(DestroySpec(st)), CallLlm(target, prompt));
  }

  /** `initialize` and `destroy` leave the bridge log as it is and never reset the counter. */
  lemma InitializeDestroyKeepLog(st: Snapshot, context: Json)
    ensures BridgeLog(st) ==> BridgeLog(InitializeSpec(st, context).after) && BridgeLog(DestroySpec(st))
    ensures DenseLog(st) ==> DenseLog(InitializeSpec(st, context).after) && DenseLog(DestroySpec(st))
    ensures DestroySpec(st).counter == st.counter
  {
  }
}
