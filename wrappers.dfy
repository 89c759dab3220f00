/** Success-or-error results, used for the dispatcher's failure paths. */
module Wrappers {

  datatype Result<+T, +E> = Ok(value: T) | Err(error: E)
}
