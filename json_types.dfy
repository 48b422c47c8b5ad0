/**
 * The values Python's `json.loads` produces and `json.dumps` consumes. The text form of
 * JSON is not modelled: requests and responses are these values.
 */
module JsonTypes {

  /** A decoded JSON value: None, bool, int, float, str, list or dict in Python's terms. */
  datatype Json =
    | Null
    | Bool(b: bool)
    | Int(i: int)
    | Float(f: real)
    | String(s: string)
    | Array(items: seq<Json>)
    | Object(fields: map<string, Json>)

  /** `type(v).__name__` for the Python value that `v` decodes to. */
  function TypeName(v: Json): string
  {
    match v
    case Null => "NoneType"
    case Bool(_) => "bool"
    case Int(_) => "int"
    case Float(_) => "float"
    case String(_) => "str"
    case Array(_) => "list"
    case Object(_) => "dict"
  }

  /** Whether `len(v)` is defined for the Python value `v` decodes to. */
  predicate HasLen(v: Json)
  {
    v.String? || v.Array? || v.Object?
  }

  /** `d.get(key, default)` on a Python dict. */
  function Get(d: map<string, Json>, key: string, default: Json): Json
  {
    if key in d then d[key] else default
  }
}
