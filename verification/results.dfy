/** Small failure-carrying datatypes shared by the other modules. */
module Results {

  /** A value that may be absent, such as a missing environment variable. */
  datatype Option<+T> = None | Some(value: T)

  /** Either a computed value or the error that stopped the computation. */
  datatype Result<+T, +E> = Ok(value: T) | Err(error: E)
}
