// Shared result and option datatypes.

module Options {
  datatype Option<+T> = None | Some(value: T)

  datatype Result<+T, +E> = Ok(value: T) | Err(error: E)

  /** An identifier; NoId stands for the empty string. */
  datatype Id = NoId | Id(text: string)
}
