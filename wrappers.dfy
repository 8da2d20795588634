/** Failure-carrying results shared by every layer of the model. Error messages are the
    strings the server puts in `Error.message`, so they are kept as plain strings. */
module Wrappers {

  datatype Option<+T> = None | Some(value: T)

  /** The value of an operation that either returns normally or throws an `Error`
      with the given message. */
  datatype Result<+T> = Ok(value: T) | Err(error: string)

  /** The outcome of a validation helper: it returns nothing or throws. */
  datatype Check = Pass | Fail(error: string)
}
