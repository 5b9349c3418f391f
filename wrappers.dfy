/** Option and Result, the two failure-carrying shapes the model uses for Swift's
    optionals and for `Result<T, Error>` / throwing closures. */
module Wrappers {

  datatype Option<+T> = None | Some(value: T)

  datatype Result<+T, +E> = Success(value: T) | Failure(error: E) {

    /** Swift's `if case .success(let v) = r { v } else { nil }`. */
    function ToOption(): (o: Option<T>)
      ensures o.Some? <==> Success?
      ensures o.Some? ==> o.value == value
    {
      match this
      case Success(v) => Some(v)
      case Failure(_) => None
    }
  }
}
