/**
  Decoded JSON documents, as the HTTP responses of the document store and the
  taxonomy service hand them to the helper, and Python's truthiness on them.
 */
module Json {

  /** A decoded JSON value; a JSON object becomes a mapping from keys to values. */
  datatype Value =
    | Null
    | Bool(b: bool)
    | Int(i: int)
    | Str(s: string)
    | Arr(items: seq<Value>)
    | Obj(fields: map<string, Value>)

  /**
    Python's truth value of a decoded value: `if not v` takes the other branch.
    The falsy values are exactly None, False, 0, the empty string, list and dict.
   */
  predicate Truthy(v: Value)
    ensures !Truthy(v) <==> v in {Null, Bool(false), Int(0), Str(""), Arr([]), Obj(map[])}
  {
    match v
    case Null => false
    case Bool(b) => b
    case Int(i) => i != 0
    case Str(s) => s != ""
    case Arr(items) => items != []
    case Obj(fields) => fields != map[]
  }

  /** `fields.get(key)`: a missing key reads as `None`, that is JSON null. */
  function Get(fields: map<string, Value>, key: string): Value
  {
    if key in fields then fields[key] else Null
  }
}
