/** Option and Result, the two sum types every fallible operation of the model returns. */
module Wrappers {
  datatype Option<T> = None | Some(value: T)

  datatype Result<T, E> = Ok(value: T) | Err(error: E)

  /** The unit value returned by operations that succeed without a payload (Rust's `()`). */
  datatype Unit = Unit
}
