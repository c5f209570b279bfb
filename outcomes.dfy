/** Value wrappers shared by the whole model: optional values, Go `error`
    values and the outcome of code that can stop on a failed type assertion. */
module Outcomes {

  datatype Option<+T> = None | Some(value: T)

  /** A non-nil Go `error`, known only by its message. */
  datatype Error = Error(message: string)

  /** The result of Go code that either finishes with a value or panics on a
      single-value type assertion (`v.(string)`, `v.(int64)`) whose dynamic
      type does not match. A panic unwinds the whole export call, so it is
      propagated with `:-` and never turned into a returned error. */
  datatype Projected<+T> = Completed(value: T) | Panicked {

    predicate IsFailure() {
      Panicked?
    }

    function PropagateFailure<U>(): Projected<U>
      requires Panicked?
    {
      Panicked
    }

    function Extract(): T
      requires Completed?
    {
      value
    }
  }
}
