/** Option and Result, the failure-compatible wrappers the rest of the model uses
    for nulls and for raised exceptions. */
module Common {

  /** `None` stands for a missing value: Python's None, NaN, pd.NA or pd.NaT. */
  datatype Option<+T> = None | Some(value: T)

  /** `Err` stands for an exception raised by the Python code. */
  datatype Result<+T, +E> = Ok(value: T) | Err(error: E) {
    predicate IsFailure() { Err? }
    function PropagateFailure<U>(): Result<U, E>
      requires Err?
    {
      Err(error)
    }
    function Extract(): T
      requires Ok?
    {
      value
    }
  }
}
