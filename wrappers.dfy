/** Option and Result, the two failure-carrying datatypes the model uses. */
module Wrappers {

  datatype Option<+T> = None | Some(value: T)

  /** The outcome of a Python computation that may raise an exception nobody
      catches: `Crash` stands for the traceback that ends the script. */
  datatype Result<+T> = Ok(value: T) | Crash {

    predicate IsFailure() {
      Crash?
    }

    function PropagateFailure<U>(): Result<U>
      requires Crash?
    {
      Crash
    }

    function Extract(): T
      requires Ok?
    {
      value
    }
  }
}
