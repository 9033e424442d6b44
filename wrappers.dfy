/** Types that model Go's `(value, error)` returns and nil slices. */
module Wrappers {

  /** A value that may be absent: a nil slice is `None`, a non-nil one `Some`. */
  datatype Option<+T> = None | Some(value: T) {

    /** The value, or `default` when absent. */
    function GetOr(default: T): T {
      match this
      case Some(v) => v
      case None => default
    }
  }

  /** The result of a Go call returning `(value, error)`. */
  datatype Result<+R, +E> = Success(value: R) | Failure(error: E)

  /** The result of a Go call returning only an `error`. */
  datatype Outcome<+E> = Pass | Fail(error: E)
}
