/** Option and Result: Java's nullable references and the success/failure of an asynchronous result. */
module Wrappers {

  /** A Java reference that may be null: `None` is null. */
  datatype Option<+T> = None | Some(value: T) {

    /** The value, or `default` when this is null. */
    function GetOr(default: T): (r: T) {
      match this
      case Some(v) => v
      case None => default
    }
  }

  /** The success or failure delivered to a result handler. */
  datatype Result<+T, +E> = Ok(value: T) | Err(error: E)
}
