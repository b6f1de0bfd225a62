/** Failure-carrying values shared by the server and client models. */
module Wrappers {

  /** A value that may be missing (a Java null, a JavaScript undefined). */
  datatype Option<+T> = None | Some(value: T)

  /** The outcome of an operation that the source may abort with an exception. */
  datatype Result<+T, +E> = Ok(value: T) | Err(error: E)
}
