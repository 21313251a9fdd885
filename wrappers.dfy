/** Failure-carrying return values shared by the model's modules. */
module Wrappers {

  /** A value that may be absent; stands for a Java reference that may be null. */
  datatype Option<+T> = None | Some(value: T)

  /** A value or the exception that replaced it. */
  datatype Result<+R, +E> = Success(value: R) | Failure(error: E)

  /** Completion of a `void` operation: normal return or the exception thrown. */
  datatype Outcome<+E> = Pass | Fail(error: E)
}
