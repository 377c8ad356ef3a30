/** Option and Result wrappers used for the source's `undefined`/`null` returns and for its thrown errors. */
module Wrappers {

  datatype Option<+T> = None | Some(value: T)

  /** Success carries the value an operation returns; Failure carries the message of the error it throws or rejects with. */
  datatype Result<+R> = Success(value: R) | Failure(error: string)

  /** For operations that return nothing but may throw. */
  datatype Outcome = Pass | Fail(error: string)

  /** `Immutable.update(current, override)`: the override when one is supplied, else the current value. */
  function Update<T>(current: T, override: Option<T>): (r: T)
    ensures override.Some? ==> r == override.value
    ensures override.None? ==> r == current
  {
    match override
    case Some(v) => v
    case None => current
  }
}

/** Values stored in the document tree (`DataValue`), compared structurally. */
module Values {

  datatype DataValue =
    | NullValue
    | BooleanValue(b: bool)
    | NumberValue(n: int)
    | StringValue(s: string)
    | ArrayValue(items: seq<DataValue>)

  /** One element of a path: an object property key or an array index. */
  datatype PathElement = Key(name: string) | Index(i: int)

  type Path = seq<PathElement>
}
