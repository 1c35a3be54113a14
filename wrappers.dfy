/** Failure-carrying return values shared by the other modules. */
module Wrappers {

  /** A value that may be absent; also the model of a nullable column. */
  datatype Option<T> = None | Some(value: T)

  /** The outcome of an operation that produces a value or raises an error. */
  datatype Result<T, E> = Ok(value: T) | Err(error: E)

  /** The outcome of an operation that produces no value. */
  datatype Outcome<E> = Pass | Fail(error: E)
}
