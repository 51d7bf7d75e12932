/** Option and Result, the two Rust wrapper types the binding returns. */
module Wrappers {

  datatype Option<+T> = None | Some(value: T)

  /** `Result<T, E>`; the binding only ever uses `Result<(), Error>`. */
  datatype Result<+T, +E> = Ok(value: T) | Err(error: E)
}
