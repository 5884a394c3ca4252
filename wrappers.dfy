/** Optional values and fallible results, shared by the whole model. */
module Wrappers {

  /** An optional value (Rust's `Option`). */
  datatype Option<+T> = None | Some(value: T) {

    /** The value if present, else `default` (Rust's `unwrap_or`). */
    function GetOr(default: T): T {
      match this
      case Some(v) => v
      case None => default
    }
  }

  /** The outcome of a fallible operation (Rust's `Result`). */
  datatype Result<+T, +E> = Ok(value: T) | Err(error: E)
}
