/** The outcome of code guarded by ICHECK: a value, or a failed check. */
module Results {
  datatype Result<T> = Ok(value: T) | CheckFailed
}
