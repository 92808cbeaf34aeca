/** Optional values and results shared by the modules of this model. */
module Wrappers {

  /** `None` stands for JavaScript's `undefined` (or for `null` where the
      source treats the two alike). */
  datatype Option<+T> = None | Some(value: T)

  /** The outcome of a step that either yields a value or a user-facing
      error message. */
  datatype Result<+T> = Ok(value: T) | Err(error: string)
}
