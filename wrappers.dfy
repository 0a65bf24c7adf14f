/** Option, Outcome and Result datatypes used across the model. */
module Wrappers {

  /** A value that may be absent: stands for a Java reference that may be null. */
  datatype Option<+T> = None | Some(value: T)

  /** The outcome of an operation that either completes or throws. */
  datatype Outcome<+E> = Pass | Fail(error: E)

  /** A value returned by an operation that may throw instead. */
  datatype Result<+T, +E> = Success(value: T) | Failure(error: E)

  /** An argument that an overload either takes or does not take at all. */
  datatype Arg<+T> = Absent | Given(value: T)
}
