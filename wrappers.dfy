/** Option and Result, the failure-carrying values every command returns. */
module Wrappers {

  datatype Option<+T> = None | Some(value: T) {
    /** The value held, or `default` when there is none (Rust's `unwrap_or`). */
    function GetOr(default: T): T {
      match this
      case Some(v) => v
      case None => default
    }
  }

  /** The `Result<T, String>` of the commands: a value or an error message. */
  datatype Result<+T> = Ok(value: T) | Err(error: string)
}
