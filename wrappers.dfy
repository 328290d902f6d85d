/** Option and Result: the model's stand-ins for Go's nil and for (value, error) pairs. */
module Wrappers {

  datatype Option<+T> = None | Some(value: T)

  /** A value, or the text of the Go error that replaced it. */
  datatype Result<+T> = Ok(value: T) | Err(error: string)
}
