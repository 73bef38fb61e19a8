/** Option and Result values shared by the modules of this project.
    A `Result` carries the error message the Go code would return. */
module Wrappers {

  datatype Option<+T> = None | Some(value: T)

  datatype Result<+T> = Ok(value: T) | Err(error: string)
}
