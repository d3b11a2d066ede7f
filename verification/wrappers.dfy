/** Option and Result values for the model's partial operations and error paths. */
module Wrappers {

  /** A value that may be absent (a parse that did not match, a name never seen). */
  datatype Option<+T> = None | Some(value: T)

  /** A value or the error that replaced it. */
  datatype Result<+T, +E> = Ok(value: T) | Err(error: E)
}
