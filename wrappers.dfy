/** Option and Result: the "undefined or a record" and "parsed or a list of
    field errors" outcomes of the store and of request validation. */
module Wrappers {

  /** `None` stands for JavaScript's `undefined` (and, for `imageUrl`, for `null`). */
  datatype Option<+T> = None | Some(value: T) {
    /** The `??` operator: the value if present, otherwise the default. */
    function GetOr(default: T): T {
      match this
      case Some(v) => v
      case None => default
    }
  }

  datatype Result<+R, +E> = Success(value: R) | Failure(error: E)
}
