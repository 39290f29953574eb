/** Optional values and results, with the `:-` failure protocol. */
module Wrappers {

  /** A value that may be absent; models Rust's `Option`. */
  datatype Option<+T> = None | Some(value: T) {

    /** Converts to a Result, failing with `error` when the value is absent. */
    function ToResult<E>(error: E): Result<T, E> {
      match this
      case Some(v) => Success(v)
      case None => Failure(error)
    }
  }

  /** A computed value or the reason it could not be computed. */
  datatype Result<+R, +E> = Success(value: R) | Failure(error: E) {

    predicate IsFailure() {
      Failure?
    }

    function PropagateFailure<U>(): Result<U, E>
      requires Failure?
    {
      Failure(error)
    }

    function Extract(): R
      requires Success?
    {
      value
    }
  }
}
