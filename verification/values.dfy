/**
 * Python values as the chat front-end handles them: what `json.loads` produces,
 * what a message dictionary holds, and what a parameter dictionary holds.
 * Floats are carried as opaque reals; no arithmetic is done on them.
 */
module Values {

  datatype Value =
    | VNone
    | VBool(b: bool)
    | VInt(i: int)
    | VFloat(f: real)
    | VStr(s: string)
    | VList(items: seq<Value>)
    | VDict(entries: map<string, Value>)

  /** Python's `bool(v)`: None, False, zero, and empty containers are falsy. */
  predicate Truthy(v: Value) {
    match v
    case VNone => false
    case VBool(b) => b
    case VInt(i) => i != 0
    case VFloat(f) => f != 0.0
    case VStr(s) => s != ""
    case VList(items) => items != []
    case VDict(entries) => entries != map[]
  }

  /** Python's `type(v).__name__` for the values `json.loads` can produce. */
  function TypeName(v: Value): string {
    match v
    case VNone => "NoneType"
    case VBool(_) => "bool"
    case VInt(_) => "int"
    case VFloat(_) => "float"
    case VStr(_) => "str"
    case VList(_) => "list"
    case VDict(_) => "dict"
  }

  /** Python's `d.get(key, default)` on a dictionary with string keys. */
  function Get<V>(d: map<string, V>, key: string, default: V): V {
    if key in d then d[key] else default
  }
}
