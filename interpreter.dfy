/**
 * What the sandbox borrows from the Python runtime and does not implement itself: the
 * JSON decoder, `str()` of values, the evaluation of code, and the exceptions these raise.
 */
module Interpreter {
  import opened Wrappers
  import opened JsonTypes

  /** A value bound in the sandbox's globals. */
  datatype Value =
    | Data(json: Json)       // anything the evaluated code or `initialize` stored
    | LlmQueryFn             // the `llm_query` closure the constructor injects
    | RlmQueryFn             // the `rlm_query` closure the constructor injects
    | BuiltinsDict           // the builtins dict `exec` stores under `__builtins__`

  /** A raised Python exception: the class name a traceback prints, and `str()` of it. */
  datatype Fault = Fault(kind: string, message: string)

  /** The exception class `json.loads` raises for text that is not JSON. */
  const JsonDecodeError: string := "json.decoder.JSONDecodeError"

  /**
   * A value the evaluated code passes to a callback: one `json.dumps` can serialise, or one
   * it rejects (a set, bytes, a list holding a set, a self-containing list). For the latter
   * the model keeps its type name, whether `len()` is defined on it, and what `json.dumps`
   * raises for it.
   */
  datatype Arg =
    | Plain(json: Json)
    | Unserializable(typeName: string, sized: bool, dumpsFault: Fault)

  function ArgTypeName(a: Arg): string
  {
    match a
    case Plain(v) => TypeName(v)
    case Unserializable(t, _, _) => t
  }

  /** Whether `len(a)` is defined. */
  predicate ArgHasLen(a: Arg)
  {
    match a
    case Plain(v) => HasLen(v)
    case Unserializable(_, sized, _) => sized
  }

  /** What `json.dumps` raises for a value of a type it has no encoding for. */
  function NotSerializable(typeName: string): Fault
  {
    Fault("TypeError", "Object of type " + typeName + " is not JSON serializable")
  }

  /**
   * One observable step of an evaluated code fragment. The interpreter is not modelled;
   * a fragment is represented by the steps it takes against the sandbox, in order.
   */
  datatype Stmt =
    | Assign(name: string, value: Json)               // name = <value>
    | Copy(name: string, source: string)              // name = source
    | Delete(name: string)                            // del name
    | PrintVar(name: string)                          // print(name), `print` as the globals bind it
    | WriteOut(text: string)                          // sys.stdout.write(text)
    | WriteErr(text: string)                          // sys.stderr.write(text)
    | CallLlm(target: string, prompt: Arg)            // target = llm_query(prompt)
    | CallRlm(target: string, task: Arg, ctx: Arg)    // target = rlm_query(task, ctx)
    | Raise(kind: string, message: string)            // raise Kind(message), or a syntax error

  /**
   * The runtime collaborators: `json.loads` (failing with what the decoder raises: a
   * JSONDecodeError, or RecursionError or ValueError on over-deep or over-long input),
   * `str()` of a value that is not a string, and the steps the interpreter takes for a
   * piece of source code.
   */
  datatype Runtime = Runtime(
    loads: string -> Result<Json, Fault>,
    display: Value -> string,
    fragment: string -> seq<Stmt>)

  /** Python's `str(v)`: a string is its own text; anything else is rendered by the runtime. */
  function Str(rt: Runtime, v: Value): string
  {
    if v.Data? && v.json.String? then v.json.s else rt.display(v)
  }

  function NameError(name: string): Fault
  {
    Fault("NameError", "name '" + name + "' is not defined")
  }

  /** What `len(v)` raises when `v`, of the named type, has no length. */
  function NoLen(typeName: string): Fault
  {
    Fault("TypeError", "object of type '" + typeName + "' has no len()")
  }

  /** What `v[key]`, with a string key, raises on a value that is not a dict. */
  function NotSubscriptable(v: Json): Fault
    requires !v.Object?
  {
    match v
    case String(_) => Fault("TypeError", "string indices must be integers, not 'str'")
    case Array(_) => Fault("TypeError", "list indices must be integers or slices, not str")
    case _ => Fault("TypeError", "'" + TypeName(v) + "' object is not subscriptable")
  }

  /** What `v.attr` raises when the value has no such attribute. */
  function NoAttribute(v: Json, attr: string): Fault
  {
    Fault("AttributeError", "'" + TypeName(v) + "' object has no attribute '" + attr + "'")
  }

  /**
   * The last line `traceback.print_exc` writes for an exception (the stack frames above it
   * are not modelled).
   */
  function TracebackText(f: Fault): (t: string)
    ensures |t| > 0 && t[|t| - 1] == '\n'
  {
    "Traceback (most recent call last):\n"
      + (if f.message == "" then f.kind else f.kind + ": " + f.message) + "\n"
  }
}
