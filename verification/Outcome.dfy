/** Results of host operations: an exception of the program is an `Err`. */
module Outcome {
  datatype Option<+T> = None | Some(value: T)

  datatype Error = Denied | Conflict | Blocked | BadValue

  datatype Result<+T> = Ok(value: T) | Err(error: Error) {
    predicate IsFailure() {
      Err?
    }

    function PropagateFailure<U>(): (r: Result<U>)
      requires Err?
    {
      Err(error)
    }

    function Extract(): T
      requires Ok?
    {
      value
    }
  }

  datatype Outcome = Pass | Fail(error: Error) {
    predicate IsFailure() {
      Fail?
    }

    function PropagateFailure<U>(): (r: Result<U>)
      requires Fail?
    {
      Err(error)
    }
  }

  function Need(condition: bool, error: Error): (r: Outcome) {
    if condition then Pass else Fail(error)
  }
}
