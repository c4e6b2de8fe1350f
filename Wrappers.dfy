/** Option and Result values shared by the model. */
module Wrappers {

  /** A JavaScript value that may be `undefined` (or `null`, where the source treats both alike). */
  datatype Option<+T> = None | Some(value: T)

  /** The outcome of a computation that may throw. */
  datatype Result<+T, +E> = Success(value: T) | Failure(error: E)

  /** `x ?? fallback` */
  function GetOr<T>(o: Option<T>, fallback: T): (r: T)
    ensures o.Some? ==> r == o.value
    ensures o.None? ==> r == fallback
  {
    match o
    case Some(v) => v
    case None => fallback
  }
}
