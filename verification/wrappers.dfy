/** Failure-compatible wrappers shared by the model: an optional value, a
    value-or-error result and a pass-or-fail outcome. */
module Wrappers {

  datatype Option<+T> = None | Some(value: T)

  datatype Result<+R, +E> = Success(value: R) | Failure(error: E) {

    /** Rewrites the error of a failure, leaving a success untouched. */
    function MapFailure<NewE>(rewrap: E -> NewE): Result<R, NewE>
    {
      match this
      case Success(v) => Success(v)
      case Failure(e) => Failure(rewrap(e))
    }
  }

  datatype Outcome<+E> = Pass | Fail(error: E)
}
