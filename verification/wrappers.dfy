/** Option and Result values used where the shell's JavaScript has an
    absent value (`undefined`) or throws. */
module Wrappers {

  /** A value that may be absent, as an optional JavaScript property is. */
  datatype Option<+T> = None | Some(value: T)

  /** The outcome of a handler that either returns or throws. */
  datatype Result<+T, +E> = Ok(value: T) | Err(error: E)
}
