/** Option and Result wrappers shared by the tab modules. */
module Results {

  /** An attribute that may never have been assigned. */
  datatype Option<+T> = None | Some(value: T)

  /** The outcome of a step that can raise. */
  datatype Result<+T, +E> = Ok(value: T) | Err(error: E)
}
