/** Failure-carrying values shared by the decoder and the protocol layer. */
module Wrappers {

  datatype Option<+T> = None | Some(value: T)

  /** The `Result<T, E>` of the modelled program: a value or an error. */
  datatype Result<+T, +E> = Ok(value: T) | Err(error: E)
}
