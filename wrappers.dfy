/** The (value, error) pair that the logger's Go functions return, as a datatype. */
module Wrappers {

  datatype Result<+T, +E> = Ok(value: T) | Err(error: E)
}
