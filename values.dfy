/** The Python values the monitor handles: what the YAML loader produces for a
    configuration, what `json.loads` produces for a body, and the truthiness
    test the source applies to them with `if not x`. */
module Values {

  datatype Option<+T> = None | Some(value: T)

  /** A Python value. `Null` is Python's `None`; mappings have string keys. */
  datatype Value =
    | Null
    | Bool(b: bool)
    | Int(i: int)
    | Str(s: string)
    | List(items: seq<Value>)
    | Dict(entries: map<string, Value>)

  /** Python truthiness: `None`, `False`, `0` and empty strings, lists and
      mappings are false; everything else is true. */
  predicate Truthy(v: Value): (b: bool)
    ensures !b <==> v == Null || v == Bool(false) || v == Int(0) || v == Str("") || v == List([]) || v == Dict(map[])
  {
    match v
    case Null => false
    case Bool(b) => b
    case Int(i) => i != 0
    case Str(s) => |s| > 0
    case List(xs) => |xs| > 0
    case Dict(m) => |m| > 0
  }

  /** `m.get(key, default)`. */
  function Get(m: map<string, Value>, key: string, default: Value): Value {
    if key in m then m[key] else default
  }
}
