/** Option and Result, the two failure-carrying shapes the Rust code uses
    (`Option<T>` fields and `Result<T, E>` returns). */
module Wrappers {

  datatype Option<+T> = None | Some(value: T) {
    /** The `Some` value, or `default` for `None`. */
    function GetOr(default: T): T {
      match this
      case Some(v) => v
      case None => default
    }
  }

  datatype Result<+T, +E> = Ok(value: T) | Err(error: E)
}
