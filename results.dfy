/** Option and Result values for the model's optional fields and error paths. */
module Results {

  datatype Option<T> = None | Some(value: T)

  /** A computation that either produced a value or raised an error; the error
      carries the message the program would report. Compatible with `:-`. */
  datatype Result<T> = Ok(value: T) | Err(error: string) {
    predicate IsFailure() { Err? }

    function PropagateFailure<U>(): Result<U>
      requires Err?
    {
      Err(error)
    }

    function Extract(): T
      requires Ok?
    {
      value
    }
  }
}
