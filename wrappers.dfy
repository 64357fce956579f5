/** Option and Result types shared by the generator modules. */
module Wrappers {

  /** A value that may be absent: an omitted command-line argument or option. */
  datatype Option<+T> = None | Some(value: T)

  /** The result of a step that can fail with an error of type E. */
  datatype Result<+T, +E> = Ok(value: T) | Err(error: E)
}
