/** Failure-compatible wrappers used throughout the model: an optional value (Python's `None`),
    a result that carries either a value or the exception the source would raise, and an outcome
    for operations that return nothing but may raise. */
module Wrappers {

  datatype Option<+T> = None | Some(value: T)

  datatype Result<+R, +E> = Success(value: R) | Failure(error: E)

  datatype Outcome<+E> = Pass | Fail(error: E)

  /** Python truthiness of an `Optional[str]`: present and not the empty string. */
  predicate Filled(o: Option<string>)
  {
    o.Some? && o.value != ""
  }
}
