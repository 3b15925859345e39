/** Optional values and results with an error, shared by every module. */
module Wrappers {

  /** A value that may be absent: SQL NULL, a JavaScript `null`/`undefined`, a missing key. */
  datatype Option<+T> = None | Some(value: T) {

    /** The value, or `default` when absent. */
    function GetOr(default: T): T {
      match this
      case Some(v) => v
      case None => default
    }
  }

  /** The outcome of an operation that can fail with an error of type `E`. */
  datatype Result<+T, +E> = Ok(value: T) | Err(error: E)
}
