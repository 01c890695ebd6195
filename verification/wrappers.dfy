/** Optional values and results, used throughout the model. */
module Wrappers {

  /** An optional value: `None` stands for an absent or falsy JavaScript value. */
  datatype Option<+T> = None | Some(value: T) {

    /** The wrapped value, or `default` when there is none (JavaScript's `x || default`). */
    function GetOr(default: T): T {
      match this
      case Some(v) => v
      case None => default
    }
  }

  /** Either a value or an error, as delivered by a Node-style completion callback. */
  datatype Result<+R, +E> = Success(value: R) | Failure(error: E)
}
