/** Option and Result, the two failure-carrying shapes the commands return. */
module Wrappers {

  datatype Option<+T> = None | Some(value: T) {

    /** The wrapped value, or `default` when there is none (Rust's `unwrap_or`). */
    function GetOr(default: T): T {
      match this
      case Some(v) => v
      case None => default
    }
  }

  /** A command's `Result<String, String>`. */
  datatype Result<+T, +E> = Ok(value: T) | Err(error: E)
}
