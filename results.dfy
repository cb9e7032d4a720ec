/** Failure-carrying values shared by the model: an optional value and the
    outcome of a call that can throw (a promise that resolves or rejects). */
module Results {

  datatype Option<+T> = None | Some(value: T)

  /** `Ok` is a resolved promise, `Err` a thrown error with its message. */
  datatype Result<+T> = Ok(value: T) | Err(reason: string)
}
