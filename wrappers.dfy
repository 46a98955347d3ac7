/** Wrappers: the model's stand-ins for Java's null and for thrown exceptions. */
module Wrappers {

  /** A value or nothing; None is what the source returns as null. */
  datatype Option<+T> = None | Some(value: T)

  /** A value or the error the source would have thrown instead. */
  datatype Result<+T, +E> = Success(value: T) | Failure(error: E)

  /** The outcome of a void operation: it returned normally or threw. */
  datatype Outcome<+E> = Pass | Fail(error: E)
}
