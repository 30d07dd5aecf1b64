/** Failure-compatible wrappers shared by every module of the model. */
module Wrappers {

  /** An optional value: `None` stands for JavaScript's `undefined`/absent. */
  datatype Option<+T> = None | Some(value: T)

  /** A value that may be JavaScript `null`; kept apart from `Option`, which means "absent". */
  datatype Nullable<+T> = Null | NonNull(value: T)

  /** The value of a call that either succeeds or fails with an error value. */
  datatype Result<+T, +E> = Success(value: T) | Failure(error: E) {

    predicate IsFailure() {
      Failure?
    }

    function PropagateFailure<U>(): Result<U, E>
      requires Failure?
    {
      Failure(error)
    }

    function Extract(): T
      requires Success?
    {
      value
    }
  }

  /** A check that passes or fails with an error value; carries no result. */
  datatype Outcome<+E> = Pass | Fail(error: E) {

    predicate IsFailure() {
      Fail?
    }

    function PropagateFailure<U>(): Result<U, E>
      requires Fail?
    {
      Failure(error)
    }

    /** Two checks in source order: the first failure wins. */
    function Then(next: Outcome<E>): (r: Outcome<E>)
      ensures r.Pass? <==> Pass? && next.Pass?
      ensures Fail? ==> r == this
    {
      if Fail? then this else next
    }
  }

  /** One `assert(condition, message)` of the source: passes when the condition holds. */
  function Need<E>(condition: bool, error: E): (r: Outcome<E>)
    ensures r.Pass? <==> condition
    ensures r.Fail? ==> r.error == error
  {
    if condition then Pass else Fail(error)
  }
}
