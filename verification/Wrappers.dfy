/** Result and option values shared by every module of the model. */
module Wrappers {

  datatype Option<+T> = None | Some(value: T)

  /** A value, or the error that the original returns in its place. */
  datatype Result<+T, +E> = Ok(value: T) | Err(error: E)
}
