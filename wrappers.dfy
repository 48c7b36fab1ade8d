/** Option and Result: the optional printed line and the raised-or-returned
    outcome of every operation of the model. */
module Wrappers {

  datatype Option<+T> = None | Some(value: T)

  /** Either a returned value or the exception that was raised instead. */
  datatype Result<+T, +E> = Ok(value: T) | Err(error: E) {

    predicate IsFailure() {
      Err?
    }

    function PropagateFailure<U>(): Result<U, E>
      requires Err?
    {
      Err(error)
    }

    function Extract(): T
      requires Ok?
    {
      value
    }
  }
}
