/** Failure-compatible wrappers used throughout the model. */
module Wrappers {

  /** A value that may be absent; usable with `:-`. */
  datatype Option<+T> = None | Some(value: T) {
    predicate IsFailure() { None? }

    function PropagateFailure<U>(): Option<U>
      requires None?
    {
      None
    }

    function Extract(): T
      requires Some?
    {
      value
    }
  }

  /** The outcome of a step that either yields a value or throws an error carrying a message. */
  datatype Result<+T> = Ok(value: T) | Err(error: string)
}
