/** Failure-carrying datatypes used to model Java's null references and thrown exceptions. */
module Wrappers {

  /** A possibly absent value; `None` stands for a Java `null`. */
  datatype Option<+T> = None | Some(value: T)

  /** The outcome of a construction that either yields a value or reports why it was refused. */
  datatype Result<+T, +E> = Success(value: T) | Failure(error: E)

  /** The outcome of a check that yields nothing on success. */
  datatype Outcome<+E> = Pass | Fail(error: E)
}
