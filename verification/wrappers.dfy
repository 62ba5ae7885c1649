/** Option for Rust's `Option<T>`, and Result for a call that either returns a value or panics. */
module Wrappers {

  datatype Option<T> = None | Some(value: T) {

    /** The value, or `default` when there is none (Rust's `unwrap_or`). */
    function UnwrapOr(default: T): T {
      match this
      case Some(v) => v
      case None => default
    }
  }

  /** The outcome of a call that can panic: either its value or the panic message. */
  datatype Result<T> = Ok(value: T) | Panic(message: string)
}
