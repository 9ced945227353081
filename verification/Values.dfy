/** The value types shared by the whole model. */
module Values {

  datatype Option<+T> = None | Some(value: T)

  datatype Result<+T, +E> = Ok(value: T) | Err(error: E) {
    predicate IsFailure() { Err? }

    function PropagateFailure<U>(): Result<U, E>
      requires Err?
    {
      Err(error)
    }

    function Extract(): T
      requires Ok?
    {
      value
    }
  }

  /** What a JSON column can hold. Numbers are integers. */
  datatype Json =
    | Null
    | Bool(b: bool)
    | Int(n: int)
    | Str(s: string)
    | List(items: seq<Json>)
    | Dict(entries: map<string, Json>)

  type Mapping = map<string, Json>

  /** Python's truth test on a decoded JSON value. */
  predicate Truthy(v: Json) {
    match v
    case Null => false
    case Bool(b) => b
    case Int(n) => n != 0
    case Str(s) => s != ""
    case List(items) => items != []
    case Dict(entries) => entries != map[]
  }

  /** `values.get(key)`. */
  function Lookup(values: Mapping, key: string): Json {
    if key in values then values[key] else Null
  }

  /** A field's stored value, or its default when the key is absent. */
  function FieldOr(entries: Mapping, key: string, default: Json): Json {
    if key in entries then entries[key] else default
  }

  predicate AllStrings(values: Mapping) {
    forall k | k in values :: values[k].Str?
  }
}
