/** Small failure-carrying datatypes shared by the whole model. */
module Wrappers {

  /** A value that may be absent: Python's `None` for an optional field. */
  datatype Option<T> = None | Some(value: T) {
    function GetOr(default: T): T {
      match this
      case Some(v) => v
      case None => default
    }
  }

  /** A computation that either yields a value or raises an error. */
  datatype Result<T, E> = Ok(value: T) | Err(error: E)

  /** A statement that either completes or raises an error. */
  datatype Outcome<E> = Pass | Fail(error: E)
}
