// Option and Result values shared by every module of the model.
module Wrappers {
  datatype Option<T> = None | Some(value: T) {
    /** Lets `:-` stop at the first missing value. */
    predicate IsFailure() { None? }

    function PropagateFailure<U>(): Option<U>
      requires None?
    {
      None
    }

    function Extract(): T
      requires Some?
    {
      value
    }
  }

  datatype Result<T, E> = Ok(value: T) | Err(error: E)
}
