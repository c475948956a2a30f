/** Java's nullable references and thrown exceptions, as values. */
module Wrappers {

  /** A reference that may be null: None stands for Java's null. */
  datatype Option<+T> = None | Some(value: T) {

    /** The value, or the given default when this is None. */
    function GetOr(default: T): T {
      match this
      case Some(v) => v
      case None => default
    }
  }

  /** The outcome of a call that either returns a value or throws. */
  datatype Result<+T, +E> = Ok(value: T) | Err(error: E)
}
