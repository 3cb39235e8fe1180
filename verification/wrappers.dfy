/** Optional values and results with an error. */
module Wrappers {

  /** A value that may be absent. The three members below let `:-` stop
      at the first absent value and pass the absence on. */
  datatype Option<+T> = None | Some(value: T) {

    predicate IsFailure() {
      None?
    }

    function PropagateFailure<U>(): Option<U>
      requires None?
    {
      None
    }

    function Extract(): T
      requires Some?
    {
      value
    }
  }

  /** Either a computed value or a description of why it could not be computed. */
  datatype Result<+R, +E> = Success(value: R) | Failure(error: E)
}
