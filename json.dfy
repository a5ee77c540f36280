/** JSON values as the monitor sees them after `json.load`: a formation record
    is a dictionary from field names to such values. */
module Json {

  datatype Value =
    | Null
    | Bool(b: bool)
    | Int(i: int)
    | Float(x: real)
    | Str(s: string)
    | Arr(items: seq<Value>)
    | Obj(members: map<string, Value>)

  /** A formation record: field name to value. */
  type Record = map<string, Value>

  /** Python truthiness of a JSON value (`bool(v)`). */
  predicate Truthy(v: Value) {
    match v
    case Null => false
    case Bool(b) => b
    case Int(i) => i != 0
    case Float(x) => x != 0.0
    case Str(s) => s != ""
    case Arr(items) => items != []
    case Obj(m) => m != map[]
  }

  /** Lists and dictionaries cannot be put in, or looked up in, a Python set. */
  predicate Hashable(v: Value) {
    !v.Arr? && !v.Obj?
  }

  /** `d.get(key)`: the value under `key`, or None when the key is absent. */
  function Get(d: map<string, Value>, key: string): Value
  {
    if key in d then d[key] else Null
  }

  /** `a or b`: the first operand when it is truthy, otherwise the second. */
  function Or(a: Value, b: Value): Value
  {
    if Truthy(a) then a else b
  }
}
