/** Optional values and fallible results shared by every module of the model. */
module Common {

  /** A value that may be missing (Python's `None` for a typed return). */
  datatype Option<+T> = None | Some(value: T)

  /** The outcome of a call that may fail, such as the duplicate lookup. */
  datatype Result<+T> = Ok(value: T) | Err(reason: string)
}
