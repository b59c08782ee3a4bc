/** Optional values and results, as the rest of the model uses them. */
module Wrappers {

  /** A value that may be absent: a missing request field, a cache miss. */
  datatype Option<+T> = None | Some(value: T) {

    /** The value, or `default` when absent. */
    function GetOr(default: T): T {
      match this
      case Some(v) => v
      case None => default
    }
  }

  /** The value an operation produces, or the error it fails with. */
  datatype Result<+T, +E> = Success(value: T) | Failure(error: E)
}
