/** Optional values and success/failure results. */
module Wrappers {

  /** A value that may be absent; for a JSON object field, `None` is JavaScript's `undefined`. */
  datatype Option<+T> = None | Some(value: T) {

    /** The value held, or `default` when there is none. */
    function GetOr(default: T): T
    {
      match this
      case Some(v) => v
      case None => default
    }
  }

  /** The outcome of a validation: the parsed data, or the reasons it was refused. */
  datatype Result<+R, +E> = Success(value: R) | Failure(error: E)
}
