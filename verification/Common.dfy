/** Small datatypes shared by every service model. */
module Common {

  datatype Option<+T> = None | Some(value: T)

  /** A service call either answers with a value or throws one of its exceptions. */
  datatype Result<+T, +E> = Ok(value: T) | Err(error: E)

  /** Stands for the UUID columns: only equality of identifiers is ever used. */
  type Id = nat
}
