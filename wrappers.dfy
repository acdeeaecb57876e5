/** Optional values and results that carry an error message, for the
    `null`/`undefined` values and the thrown `Error`s of the services. */
module Wrappers {

  datatype Option<+T> = None | Some(value: T)

  /** A computation that either yields a value or throws an `Error` whose
      message is `error`. */
  datatype Result<+T> = Ok(value: T) | Err(error: string)
}
