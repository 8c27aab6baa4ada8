/** Failure-carrying results, standing in for the exceptions the datasource raises. */
module Wrappers {

  /** Either a value or the error the Python code would have raised. */
  datatype Result<+R, +E> = Ok(value: R) | Err(error: E)

  /** An optional value, for keyword arguments a caller may leave out. */
  datatype Option<+T> = None | Some(value: T)
}
