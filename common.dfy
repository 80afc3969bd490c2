/** Small value wrappers shared by every module of the model. */
module Common {

  /** A value that may be absent: Java's `Optional` and nullable references. */
  datatype Option<T> = None | Some(value: T)

  /** The answer of a remote directory call: either the call returned a value,
      or it threw (network failure, HTTP error mapped to an exception). */
  datatype Lookup<T> = Answered(value: T) | Unavailable
}
