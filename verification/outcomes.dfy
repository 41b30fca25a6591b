/** Optional values and success/failure results shared by the modules of the model. */
module Outcomes {

  /** A value that may be absent (JavaScript `undefined`, `null` or `-Infinity` sentinels). */
  datatype Option<+T> = None | Some(value: T)

  /** The outcome of an operation that throws on bad input. */
  datatype Result<+T, +E> = Ok(value: T) | Err(error: E)
}
