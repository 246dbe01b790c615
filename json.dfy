/** Decoded JSON-like values: what a metadata mapping may hold. */
module Json {

  datatype Value =
    | Null
    | Bool(b: bool)
    | Number(n: int)
    | Str(s: string)
    | Array(items: seq<Value>)
    | Object(fields: map<string, Value>)

  /** Python truthiness (`if value:`) of such a value. */
  predicate Truthy(v: Value) {
    match v
    case Null => false
    case Bool(b) => b
    case Number(n) => n != 0
    case Str(s) => s != ""
    case Array(items) => items != []
    case Object(fields) => fields != map[]
  }
}
