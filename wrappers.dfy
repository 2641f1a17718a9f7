/** Optional values, standing for JavaScript's `null` / `undefined` where the
    source checks for them. */
module Wrappers {

  datatype Option<+T> = None | Some(value: T) {

    function GetOr(default: T): T {
      match this
      case Some(v) => v
      case None => default
    }
  }

  /** The outcome of a step that may be refused, with the reason. */
  datatype Result<+T, +E> = Success(value: T) | Failure(error: E)
}
