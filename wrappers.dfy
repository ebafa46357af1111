/** Option and Result, shared by the component modules. */
module Wrappers {

  /** A value that may be absent (`undefined` or `null` in the source). */
  datatype Option<+T> = None | Some(value: T)

  /** The present value as a set: empty for None, a singleton for Some. */
  function Members<T(==)>(o: Option<T>): (r: set<T>)
    ensures o.None? ==> r == {}
    ensures o.Some? ==> r == {o.value}
  {
    match o
    case None => {}
    case Some(v) => {v}
  }

  /** The outcome of an operation that can throw. */
  datatype Result<+T, +E> = Success(value: T) | Failure(error: E)
}
