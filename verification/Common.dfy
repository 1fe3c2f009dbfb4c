/** Small result types shared by every module. */
module Common {
  datatype Option<+T> = None | Some(value: T)

  /** A C++ call that either returns or throws. */
  datatype Result<+T> = Ok(value: T) | Err(message: string)
}
