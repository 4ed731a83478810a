/** Option and Result, the two failure-carrying shapes the round engine needs. */
module Wrappers {

  /** Rust's `Option`: a value that may be absent. */
  datatype Option<+T> = None | Some(value: T) {

    /** `unwrap_or`: the carried value, or `default` when there is none. */
    function UnwrapOr(default: T): T {
      match this
      case Some(v) => v
      case None => default
    }
  }

  /** The outcome of an action that can be refused. */
  datatype Result<+T, +E> = Ok(value: T) | Err(error: E)
}
