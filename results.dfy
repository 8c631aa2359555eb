/** Optional values and typed failures, standing for Swift's optionals and `throws`. */
module Results {

  datatype Option<+T> = None | Some(value: T)

  datatype Result<+T, +E> = Ok(value: T) | Err(error: E)
}
