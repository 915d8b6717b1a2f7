/** Small result types shared by the other modules. */
module Wrappers {

  datatype Option<+T> = None | Some(value: T)

  /** The outcome of a call that may raise: a value, or a `ValueError`
      carrying its message (the only exception the prompt code raises). */
  datatype Result<+T> = Ok(value: T) | Err(message: string)
}
