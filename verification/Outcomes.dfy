/** Errors and missing values. */
module Outcomes {

  datatype Result<T> = Ok(value: T) | Err(error: string)

  datatype Option<T> = None | Some(value: T)
}
