/** Values that may be absent and computations that may fail. */
module Wrappers {

  /** An optional value: TypeScript's `T | undefined`. */
  datatype Option<+T> = None | Some(value: T) {

    /** The nullish-coalescing operator `this ?? fallback`. */
    function GetOr(fallback: T): T {
      match this
      case Some(v) => v
      case None => fallback
    }
  }

  /** A value, or the error a thrown exception would carry. */
  datatype Result<+R, +E> = Success(value: R) | Failure(error: E)
}
