/** Failure-carrying values shared by the whole model.  The Python code
    signals a missing dictionary key by raising `KeyError`; here that is an
    `Err` carrying the key that was looked up. */
module Results {

  datatype Option<+T> = None | Some(value: T)

  datatype Error = KeyError(key: string)

  datatype Result<+T> = Ok(value: T) | Err(error: Error)
}
