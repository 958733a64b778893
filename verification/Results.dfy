/** Outcomes of operations that may refuse their input. */
module Results {

  datatype Error = Corrupt | InvalidArgument | OutOfRange | Unsupported | Fenced | NotFound

  datatype Result<+T> = Ok(value: T) | Err(error: Error) {
    predicate IsFailure() {
      Err?
    }

    function PropagateFailure<U>(): Result<U>
      requires Err?
    {
      Err(error)
    }

    function Extract(): T
      requires Ok?
    {
      value
    }
  }
}
