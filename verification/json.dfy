/** The values `json.loads` produces, as the engine inspects them. */
module Json {
  import opened Dicts

  /** A decoded JSON value; an object keeps its fields in document order. */
  datatype Json =
    | Null
    | Bool(b: bool)
    | Int(i: int)
    | Float(f: real)
    | Str(s: string)
    | Array(items: seq<Json>)
    | Object(fields: Dict<Json>)

  /** Python's truth value of the decoded value (`if value:`). */
  predicate Truthy(j: Json) {
    match j
    case Null => false
    case Bool(b) => b
    case Int(i) => i != 0
    case Float(f) => f != 0.0
    case Str(s) => s != ""
    case Array(a) => a != []
    case Object(o) => o != []
  }

  /** The name Python gives the type of the decoded value (as in an `AttributeError` message). */
  function TypeName(j: Json): string {
    match j
    case Null => "NoneType"
    case Bool(_) => "bool"
    case Int(_) => "int"
    case Float(_) => "float"
    case Str(_) => "str"
    case Array(_) => "list"
    case Object(_) => "dict"
  }
}
