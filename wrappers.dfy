/** Option and Result values used across the model. `Raised` stands for a Python
    exception that escapes the node function (the caller sees a failed node). */
module Wrappers {

  datatype Option<+T> = None | Some(value: T)

  datatype Result<+T> = Ok(value: T) | Raised(error: string)

  /** What opening a file finds: no file, its text, or the message of the
      exception that reading it raised. */
  datatype FileRead = NotFound | Content(text: string) | Unreadable(message: string)
}
