/** Optional values and success-or-error results, used for every
    absent-able field and every fallible step of the adapter. */
module Wrappers {

  /** A value that may be absent: the model's reading of a nilable Go field. */
  datatype Option<+T> = None | Some(value: T) {

    /** The carried value, or `default` when absent. */
    function GetOr(default: T): T {
      match this
      case Some(v) => v
      case None => default
    }
  }

  /** Either a value or an error: the model's reading of Go's `(T, error)` pair. */
  datatype Result<+T, +E> = Ok(value: T) | Err(error: E)

  /** Success without a value, or an error: Go's bare `error` return. */
  datatype Outcome<+E> = Pass | Fail(error: E)
}
