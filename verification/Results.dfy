/** The outcome of a call that the original ends with a value or a thrown error. */
module Results {
  datatype Result<+T> = Ok(value: T) | Error(message: string)

  datatype Option<+T> = None | Some(value: T)
}
