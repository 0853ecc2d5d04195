/** Failure-carrying values shared by the models. */
module Wrappers {

  datatype Option<+T> = None | Some(value: T)

  /** The source's `Result<T, Error>`; the error text is not modelled, only its presence. */
  datatype Result<+T> = Success(value: T) | Failure
}
