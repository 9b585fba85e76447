/** Optional values and results, used where a job field may be missing or a build may fail. */
module Wrappers {

  /** A field that is either absent (JavaScript `undefined`, or the key not set) or holds a value. */
  datatype Option<+T> = None | Some(value: T) {

    /** The held value, or `default` when absent. */
    function GetOr(default: T): T {
      match this
      case Some(v) => v
      case None => default
    }
  }

  /** The outcome of an operation that either produces a value or fails with an error. */
  datatype Result<+T, +E> = Ok(value: T) | Err(error: E)
}
