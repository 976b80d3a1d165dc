/** The fragment of decoded JSON that the booking-check response carries in
    its `flights_checked` and `flights_invalid` fields, with Python's notion
    of truthiness (task.py tests both fields with `if` / `not`). */
module Json {

  datatype Value =
    | Null
    | Bool(b: bool)
    | Number(n: int)
    | Str(s: string)
    | List(items: seq<Value>)
    | Object(fields: seq<(string, Value)>)  // a dict, in its key order

  /** Python truthiness: exactly `None`, `False`, `0`, `""`, `[]` and `{}`
      are falsy. */
  predicate Truthy(v: Value): (t: bool)
    ensures !t <==> v == Null || v == Bool(false) || v == Number(0) ||
                    v == Str("") || v == List([]) || v == Object([])
  {
    match v
    case Null => false
    case Bool(b) => b
    case Number(n) => n != 0
    case Str(s) => |s| > 0
    case List(items) => |items| > 0
    case Object(fields) => |fields| > 0
  }
}
