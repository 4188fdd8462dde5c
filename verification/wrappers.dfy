/** Failure-carrying wrappers used across the model: `Option` for the
    source's nullable values and `Result` for operations that can fail. */
module Wrappers {

  datatype Option<+T> = None | Some(value: T) {

    /** This value when present, otherwise `other`. */
    function OrElse(other: Option<T>): (r: Option<T>)
      ensures r.Some? <==> Some? || other.Some?
      ensures Some? ==> r == this
      ensures None? ==> r == other
    {
      if Some? then this else other
    }
  }

  datatype Result<+R, +E> = Success(value: R) | Failure(error: E) {

    /** Forgets the error, keeping only whether a value was produced. */
    function ToOption(): Option<R>
    {
      match this
      case Success(v) => Some(v)
      case Failure(_) => None
    }
  }
}
