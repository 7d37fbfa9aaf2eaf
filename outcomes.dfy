/** The three ways a call of the Go program can end. */
module Outcomes {

  datatype Option<+T> = None | Some(value: T)

  /**
   * A Go call returns a value with a nil error (`Ok`), returns a non-nil
   * error (`Err`), or stops the program with a run-time panic (`Panic`),
   * which here is always an index out of range.
   */
  datatype Result<+T, +E> = Ok(value: T) | Err(error: E) | Panic

  /** A Go function whose only result is an `error`. */
  type Outcome<E> = Result<(), E>
}
