/** Optional values and results, standing for Swift optionals and thrown errors. */
module Wrappers {

  datatype Option<+T> = None | Some(value: T) {

    /** Swift's `x ?? default`. */
    function GetOr(default: T): T {
      match this
      case Some(v) => v
      case None => default
    }
  }

  /** The outcome of a Swift `throws` function: its value, or the error it threw. */
  datatype Result<+T, +E> = Success(value: T) | Failure(error: E) {

    /** Swift's `try?`: a thrown error becomes nil. */
    function ToOption(): Option<T> {
      match this
      case Success(v) => Some(v)
      case Failure(_) => None
    }
  }
}
