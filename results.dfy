/** Failure-carrying values shared by the modules of the model. Errors are the
    text of the Go `error` they stand for. */
module Results {

  datatype Option<T> = None | Some(value: T)

  datatype Result<T> = Ok(value: T) | Err(error: string)
}
