/** Optional values, and the outcome of evaluating Python code that may raise an exception it does not catch. */
module Outcomes {

  /** A value that may be absent. */
  datatype Option<+T> = None | Some(value: T)

  /** The result of running a piece of Python code: it returns a value, or it raises an exception
      that the code itself does not catch (the caller sees the exception, not a value).
      Failure-compatible, so `var x :- e;` propagates the exception. */
  datatype Attempt<+T> = Ok(value: T) | Raised {

    predicate IsFailure() {
      Raised?
    }

    function PropagateFailure<U>(): Attempt<U>
      requires Raised?
    {
      Raised
    }

    function Extract(): T
      requires Ok?
    {
      value
    }
  }
}
