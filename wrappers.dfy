/** Option and Result, the two failure-carrying datatypes the model uses for Go's nil pointers and error returns. */
module Wrappers {

  datatype Option<+T> = None | Some(value: T)

  /** A computation that either produced a value or failed with an error, like Go's `(T, error)` pair. */
  datatype Result<+R, +E> = Success(value: R) | Failure(error: E) {

    /** The error of a failed result, as the `error` a Go function returns (nil on success). */
    function ErrorOf(): Option<E> {
      match this
      case Success(_) => None
      case Failure(e) => Some(e)
    }
  }
}
