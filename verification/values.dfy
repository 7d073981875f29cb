/** Python values as the engine passes them around.

The engine keeps its state in plain dictionaries (the run registry, low
chunks, state results), so this module gives those dynamic values one
datatype, the truthiness rule that `if x:` and `.get(...)` rely on, and the
error results that a failing dictionary lookup or method call produces.
 */
module Values {

  /** A dynamically typed Python value. Dictionary keys are strings, which is
      all the modelled code ever uses. */
  datatype Value =
    | VNone
    | VBool(b: bool)
    | VInt(i: int)
    | VStr(s: string)
    | VList(items: seq<Value>)
    | VMap(entries: map<string, Value>)

  /** A Python dictionary with string keys. */
  type Dict = map<string, Value>

  /** Python truth testing: `None`, `False`, zero and empty containers are falsy. */
  predicate Truthy(v: Value)
  {
    match v
    case VNone => false
    case VBool(b) => b
    case VInt(i) => i != 0
    case VStr(s) => |s| > 0
    case VList(items) => |items| > 0
    case VMap(entries) => |entries| > 0
  }

  /** `d.get(key)`: the stored value, or `None` when the key is absent. */
  function Get(d: Dict, key: string): (v: Value)
    ensures key !in d ==> v == VNone
    ensures key in d ==> v == d[key]
  {
    if key in d then d[key] else VNone
  }

  /** The exceptions the modelled code can raise. */
  datatype Error =
    | KeyError(key: string)        // a missing dictionary key
    | AttributeError(attr: string) // a method the value's type does not have
    | TypeError(op: string)        // an operator the value's type does not support

  /** The outcome of a call that either returns a value or raises. */
  datatype Result<+T> = Success(value: T) | Failure(error: Error)

  datatype Option<+T> = None | Some(value: T)
}
