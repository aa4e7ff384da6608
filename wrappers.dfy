/** Optional values, used for nullable pointers, for files that may fail to open and for
    stream extractions that may fail; results of operations that may throw. */
module Wrappers {

  datatype Option<+T> = None | Some(value: T) {

    /** The value, or `default` when there is none. */
    function GetOr(default: T): T {
      match this
      case Some(v) => v
      case None => default
    }
  }

  /** The outcome of an operation that may throw: its value, or the error that escaped it. */
  datatype Result<+T, +E> = Ok(value: T) | Err(error: E)
}
