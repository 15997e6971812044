/** Small result types shared by every module: a value that may be absent and the
    outcome of an operation that can throw. */
module Wrappers {
  datatype Option<T> = None | Some(value: T)

  /** The outcome of a call that either returns a value or throws an exception
      carrying a message. */
  datatype Result<T> = Ok(value: T) | Err(message: string)
}
