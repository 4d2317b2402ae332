/** Rust's `Option` and `Result`, as the result schema and the viewer use them. */
module Wrappers {

  datatype Option<+T> = None | Some(value: T)

  /** `Result<T, E>`; `Failure` carries the error's description. */
  datatype Result<+T, +E> = Success(value: T) | Failure(error: E) {

    /** Rust's `Result::ok`: keeps the value, discards the error. */
    function ToOption(): (r: Option<T>)
      ensures r.Some? <==> Success?
      ensures r.Some? ==> r.value == value
    {
      match this
      case Success(v) => Some(v)
      case Failure(_) => None
    }
  }
}
