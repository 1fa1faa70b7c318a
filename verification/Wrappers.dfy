// Absent values and failures.
module Wrappers {

  datatype Option<+T> = None | Some(value: T)

  // A promise of the original: its value, or an exception.
  datatype Result<+T> = Ok(value: T) | Failed {
    predicate IsFailure() {
      Failed?
    }

    function PropagateFailure<U>(): Result<U>
      requires Failed?
    {
      Failed
    }

    function Extract(): T
      requires Ok?
    {
      value
    }
  }
}
