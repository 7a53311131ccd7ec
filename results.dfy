/** Failure-carrying wrappers used where the Python code raises an exception
    or where an attribute may not exist yet. */
module Results {

  /** An optional value: models a Python attribute that may not have been set. */
  datatype Option<T> = None | Some(value: T)

  /** A value, or the exception that was raised instead of producing it. */
  datatype Result<T, E> = Success(value: T) | Failure(error: E)

  /** Completion of a state change that returns nothing: it passed, or it raised `error`. */
  datatype Outcome<E> = Pass | Fail(error: E)
}
