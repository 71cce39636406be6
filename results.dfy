/** Failure-carrying return values: Java's null and thrown exceptions become data. */
module Results {

  /** A Java reference that may be null. */
  datatype Option<+T> = None | Some(value: T)

  /** A Java call that either returns a value or throws. */
  datatype Result<+T, +E> = Ok(value: T) | Err(error: E)

  /** A Java call whose return value is not used: it either completes or throws. */
  datatype Outcome<+E> = Pass | Fail(error: E)
}
