/** Failure-compatible results for the estimation pipeline.

    The original program signals failures by raising exceptions: a float
    division by zero, a failed `assert`, `numpy.random.choice` on an empty
    list, or `list.remove` of a missing value.  Each of these becomes an `Err` value here, so that every member
    that can fail states when it does. */
module Wrappers {

  /** The exceptions the modelled code can raise. */
  datatype Error =
    | ZeroDivision         // ZeroDivisionError from `/`
    | AssertionFailed      // a failed `assert` statement
    | EmptyChoice          // numpy.random.choice on an empty list
    | ValueError           // list.remove of a value the list does not hold

  datatype Result<+T> = Ok(value: T) | Err(error: Error) {
    predicate IsFailure() { Err? }

    function PropagateFailure<U>(): Result<U>
      requires Err?
    {
      Err(error)
    }

    function Extract(): T
      requires Ok?
    {
      value
    }
  }

  /** The outcome of a method that changes state and returns nothing. */
  datatype Outcome = Done | Raised(error: Error)
}
