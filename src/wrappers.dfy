/** Option and Result values shared by every module of the model. */
module Wrappers {
  datatype Option<T> = None | Some(value: T)
  {
    function GetOr(default: T): T
    {
      match this
      case None => default
      case Some(v) => v
    }
  }

  /** The outcome of an operation that may fail with a message. */
  datatype Result<T, E> = Ok(value: T) | Err(error: E)
}
