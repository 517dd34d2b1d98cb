/** Optional values and failing computations, shared by every module of the model. */
module Wrappers {

  /** A value that may be absent; `None` stands for JavaScript's `null` and `undefined` alike. */
  datatype Option<T> = None | Some(value: T) {

    /** The nullish-coalescing `this ?? default`. */
    function GetOr(default: T): T {
      match this
      case Some(v) => v
      case None => default
    }
  }

  /** The result of an operation that may throw an `Error` with a message. */
  datatype Outcome<T> = Ok(value: T) | Err(message: string)
}
