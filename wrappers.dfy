/** Small failure-carrying datatypes shared by the other modules. */
module Wrappers {

  datatype Option<+T> = None | Some(value: T)

  /** A computation that either yields a value or raises a Python exception,
      carried as the text `str(e)` of that exception. */
  datatype Result<+T> = Ok(value: T) | Err(msg: string)
}
