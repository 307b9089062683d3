/** Failure-carrying datatypes shared by the rest of the model. */
module Wrappers {

  /** A value that may be absent: Go's `v, ok := …` idiom. */
  datatype Option<+T> = None | Some(value: T) {

    /** The value when present, `default` otherwise. */
    function GetOr(default: T): T
    {
      match this
      case Some(v) => v
      case None => default
    }
  }

  /** Either a value or an error: Go's `(value, error)` pair with exactly one of them meaningful. */
  datatype Result<+T, +E> = Success(value: T) | Failure(error: E)
}
