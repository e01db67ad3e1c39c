/** Failure-carrying results, standing in for the Java exceptions and `Optional`s of the
    modelled code. */
module Wrappers {

  /** `java.util.Optional`: a value, or nothing. */
  datatype Option<+T> = None | Some(value: T)

  /** A computed value, or the error the Java code would have thrown. */
  datatype Result<+T, +E> = Success(value: T) | Failure(error: E)

  /** The outcome of a `void` Java method: it returned, or it threw. */
  datatype Outcome<+E> = Pass | Fail(error: E)
}
