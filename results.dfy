/** Outcomes of operations that the bookstore code ends by raising an exception. */
module Results {

  /** The exceptions raised by the domain layer: every one is a `ValueError` with a fixed message. */
  datatype Error = ValueError(message: string)

  datatype Result<T> = Ok(value: T) | Err(error: Error)

  datatype Option<T> = None | Some(value: T)
}
