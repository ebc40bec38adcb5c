/**
  Optional values (JavaScript's `null` / `undefined` / "not found") and the
  two ways a promise from the data layer settles.
 */
module Wrappers {

  datatype Option<+T> = None | Some(value: T) {

    /** The value, or `default` when there is none (JavaScript's `x ?? default`). */
    function GetOr(default: T): T {
      match this
      case Some(v) => v
      case None => default
    }
  }

  /** How an awaited call settles: with a value, or rejected (the error's content is never read). */
  datatype Outcome<+T> = Resolved(value: T) | Rejected
}
