/** Failure-compatible wrappers shared by every module of the model.
    The Go code encodes absence as `nil` (or NaN) and failure as a non-nil
    `error`; the model uses `Option` and `Result` for both. */
module Wrappers {

  datatype Option<+T> = None | Some(value: T) {

    predicate IsFailure() {
      None?
    }

    function PropagateFailure<U>(): Option<U>
      requires None?
    {
      None
    }

    function Extract(): T
      requires Some?
    {
      value
    }

    /** The wrapped value, or `default` when absent. */
    function GetOr(default: T): T {
      match this
      case Some(v) => v
      case None => default
    }
  }

  datatype Result<+R, +E> = Success(value: R) | Failure(error: E) {

    predicate IsFailure() {
      Failure?
    }

    function PropagateFailure<U>(): Result<U, E>
      requires Failure?
    {
      Failure(error)
    }

    function Extract(): R
      requires Success?
    {
      value
    }

    /** The same outcome with the error, if any, transformed by `f`. */
    function MapFailure<NewE>(f: E -> NewE): (r: Result<R, NewE>)
      ensures r.Success? <==> Success?
      ensures Success? ==> r.value == value
    {
      match this
      case Success(v) => Success(v)
      case Failure(e) => Failure(f(e))
    }
  }
}
