/** Shared value types: options, results of operations that may raise, and JSON values. */
module Values {

  datatype Option<+T> = None | Some(value: T)

  /** The exception classes raised by the modelled operations. */
  datatype Error = KeyError | ValueError | RuntimeError

  datatype Result<+T> = Ok(value: T) | Raised(error: Error)

  /** A decoded JSON value. Integers and floats are kept apart, as `json.loads` does. */
  datatype Json =
    | Null
    | Bool(b: bool)
    | Int(i: int)
    | Float(r: real)
    | Str(s: string)
    | Arr(items: seq<Json>)
    | Obj(fields: map<string, Json>)

  /** `dict.get(key)` on a JSON object held as a map. */
  function Get(fields: map<string, Json>, key: string): (r: Option<Json>)
    ensures r.Some? <==> key in fields
    ensures r.Some? ==> r.value == fields[key]
  {
    if key in fields then Some(fields[key]) else None
  }

  function Max(a: real, b: real): (r: real)
    ensures r >= a && r >= b && (r == a || r == b)
  {
    if a >= b then a else b
  }

  function Min(a: real, b: real): (r: real)
    ensures r <= a && r <= b && (r == a || r == b)
  {
    if a <= b then a else b
  }
}
