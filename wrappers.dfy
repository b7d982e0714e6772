/** Optional values (a JavaScript `undefined`/`null`, or a present value) and
    outcomes of calls that may fail. */
module Wrappers {

  datatype Option<+T> = None | Some(value: T) {

    /** The value if present, otherwise `default` (JavaScript's `x ?? default`). */
    function GetOr(default: T): T {
      match this
      case Some(v) => v
      case None => default
    }
  }

  /** A promise that resolves with a value or rejects with an error message. */
  datatype Result<+T> = Ok(value: T) | Err(message: string)
}
