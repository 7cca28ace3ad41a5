/** Failure-carrying values shared by the views and the forms. */
module Wrappers {

  datatype Option<+T> = None | Some(value: T)

  /** The value a view or a validator produces, or the error it raises. */
  datatype Result<+T, +E> = Ok(value: T) | Err(error: E)
}
