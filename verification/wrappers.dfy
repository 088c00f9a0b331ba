/** Failure-carrying results for the operations of the haiku generator.
    The script has no error handling of its own: every failure it can hit is
    an uncaught Python exception, and the model names the two that occur. */
module Wrappers {

  /** The exceptions the modelled code can raise. */
  datatype Error =
    | KeyError(key: string)  // a dictionary lookup of a missing key
    | IndexError             // indexing an empty list or choosing from one

  datatype Result<+T> = Ok(value: T) | Err(error: Error) {

    predicate IsFailure() {
      Err?
    }

    function PropagateFailure<U>(): Result<U>
      requires Err?
    {
      Err(error)
    }

    function Extract(): T
      requires Ok?
    {
      value
    }
  }
}
