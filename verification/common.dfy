/** Failure-carrying wrappers shared by every module of the model. */
module Common {

  /** A value that may be missing (JavaScript `undefined` / `null` slots). */
  datatype Option<+T> = None | Some(value: T)

  /** The outcome of a step that either yields a value or throws an `Error`
      whose `message` is the carried string. */
  datatype Result<+T> = Ok(value: T) | Err(error: string)
}
