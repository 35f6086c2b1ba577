/** Success/failure wrappers for the operations that throw or fail in the program. */
module Results {

  datatype Option<T> = None | Some(value: T)

  datatype Result<T, E> = Ok(value: T) | Err(error: E)

}
