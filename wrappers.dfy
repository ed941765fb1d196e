/** Optional values and results with an error, for the places where the
    modelled code returns None or raises an exception. */
module Wrappers {

  datatype Option<+T> = None | Some(value: T)

  /** `Err` stands for an exception raised by the modelled code; `error`
      names which one. */
  datatype Result<+T, +E> = Ok(value: T) | Err(error: E)
}
