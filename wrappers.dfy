/** The optional value and the success-or-error value shared by the model. */
module Wrappers {

  /** An `Option`, as returned by iterator lookups such as `nth`. */
  datatype Option<+T> = None | Some(value: T)

  /** A success carrying a value, or an error carrying its message. */
  datatype Result<+T, +E> = Ok(value: T) | Err(error: E)
}
