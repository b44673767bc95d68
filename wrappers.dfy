/** Failure-compatible wrappers shared by every module of the model:
    Option stands for a Java reference that may be null, Result and
    Outcome for a call that either returns or raises. */
module Wrappers {

  datatype Option<+T> = None | Some(value: T)

  datatype Result<+T, +E> = Success(value: T) | Failure(error: E)

  datatype Outcome<+E> = Pass | Fail(error: E)
}
