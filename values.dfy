/** The dynamically typed Python values that configuration attributes and arguments hold. */
module PyValues {

  /** A Python value: `Nil` is Python's `None`; `Dict` keys are strings (the only keys used here). */
  datatype Value =
    | Nil
    | Bool(b: bool)
    | Int(i: int)
    | Str(s: string)
    | List(items: seq<Value>)
    | Tuple(items: seq<Value>)
    | Dict(entries: map<string, Value>)

  /** Python truthiness (`bool(v)`): `None`, `False`, `0` and empty strings and containers are false. */
  predicate Truthy(v: Value)
  {
    match v
    case Nil => false
    case Bool(b) => b
    case Int(i) => i != 0
    case Str(s) => s != ""
    case List(items) => items != []
    case Tuple(items) => items != []
    case Dict(entries) => entries != map[]
  }
}
