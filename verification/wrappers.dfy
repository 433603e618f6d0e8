/** Failure-compatible wrappers used for the model's optional values and for
    the two exceptions the listing operation can raise. */
module Wrappers {

  /** An optional value: an XML child element that may be absent, or a
      string search that may come back empty-handed. */
  datatype Option<+T> = None | Some(value: T)

  /** Either a computed value or the error that was raised instead of it. */
  datatype Result<+R, +E> = Success(value: R) | Failure(error: E) {

    predicate IsFailure() {
      Failure?
    }

    function PropagateFailure<U>(): Result<U, E>
      requires Failure?
    {
      Failure(error)
    }

    function Extract(): R
      requires Success?
    {
      value
    }
  }
}
