/** JSON-like values as the SDK handles them (Python dicts, lists and scalars),
    together with the two pieces of Python semantics the compute core relies
    on: truthiness, and `int < value` comparison. */
module Json {

  /** A decoded JSON value; `Null` is Python's `None`. */
  datatype Value =
    | Null
    | Bool(b: bool)
    | Int(i: int)
    | Str(s: string)
    | List(elems: seq<Value>)
    | Object(fields: map<string, Value>)

  /** A JSON object, i.e. a Python dict with string keys. */
  type Record = map<string, Value>

  datatype Option<+T> = None | Some(value: T)

  /** Errors raised by the modelled code itself. */
  datatype Error =
    | KeyError(key: string)       // `d[key]` on a dict without that key
    | NotAnObject(key: string)    // the value under `key` is not a dict

  datatype Result<+T> = Success(value: T) | Failure(error: Error)

  /** Python truthiness: `None`, `False`, `0`, `""`, `[]` and `{}` are false. */
  predicate Truthy(v: Value)
  {
    match v
    case Null => false
    case Bool(b) => b
    case Int(i) => i != 0
    case Str(s) => s != ""
    case List(elems) => elems != []
    case Object(fields) => fields != map[]
  }

  /** Python 3 `n < v` for an int `n`: defined against ints and booleans
      (`True == 1`, `False == 0`); any other operand raises `TypeError`,
      which is `None` here. */
  function LessThan(n: int, v: Value): Option<bool>
  {
    match v
    case Int(m) => Some(n < m)
    case Bool(b) => Some(n < (if b then 1 else 0))
    case _ => None
  }
}
