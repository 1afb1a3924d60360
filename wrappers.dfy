/** Option and Result values for the "None" returns and the raised exceptions of the program. */
module Wrappers {
  datatype Option<T> = None | Some(value: T)

  /** The outcome of an operation that either produces a value or raises with a message. */
  datatype Result<T> = Ok(value: T) | Err(error: string)
  {
    predicate IsOk() { Ok? }
  }
}
