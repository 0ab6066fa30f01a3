/** Option and result types shared by the modules of this model. */
module Wrappers {

  /** A value that may be absent: the `bool` return of a C helper together with its out-parameter. */
  datatype Option<+T> = None | Some(value: T) {

    /** The carried value, or `default` when there is none. */
    function GetOr(default: T): T {
      match this
      case Some(v) => v
      case None => default
    }
  }

  /** Either a value or the reason there is none. */
  datatype Result<+R, +E> = Success(value: R) | Failure(error: E)
}
