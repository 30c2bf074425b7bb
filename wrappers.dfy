/** Optional values and error results shared by every module of the model. */
module Wrappers {

  datatype Option<+T> = None | Some(value: T)

  /** A Python call that either returns a value or raises; `Err` carries the exception text. */
  datatype Result<+T> = Ok(value: T) | Err(error: string)
}
