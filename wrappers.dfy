/** The optional value used wherever the source has `null`/`undefined`, and thrown errors as values. */
module Wrappers {

  datatype Option<+T> = None | Some(value: T) {

    /** The value, or `default` when there is none (the source's `?? default`). */
    function GetOr(default: T): T {
      match this
      case Some(v) => v
      case None => default
    }
  }

  /** A value, or the message of the `Error` that was thrown instead. */
  datatype Result<+T> = Success(value: T) | Failure(error: string)
}
