/** Optional values and outcomes shared by every module of the model. */
module Wrappers {

  /** A value that may be absent (JavaScript `undefined` / `null`). */
  datatype Option<+T> = None | Some(value: T)

  /** The outcome of an asynchronous collaborator: a value, or a thrown error's message. */
  datatype Result<+T> = Ok(value: T) | Err(message: string)
}
