/** The two shapes in which the source returns a value or an error, and a value or nothing. */
module Outcome {

  datatype Result<+T> = Ok(value: T) | Err(message: string)

  datatype Option<+T> = None | Some(value: T)
}
