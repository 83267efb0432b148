/** Optional values and results with an error, used for Java's null and thrown exceptions. */
module Wrappers {

  datatype Option<+T> = None | Some(value: T)

  datatype Result<+T, +E> = Ok(value: T) | Err(error: E)

  /** The outcome of a call that returns nothing: it either completes or throws. */
  datatype Outcome<+E> = Pass | Fail(error: E)
}
