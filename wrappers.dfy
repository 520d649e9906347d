/** Optional values (Java's null) and results of operations that may throw. */
module Wrappers {

  datatype Option<T> = None | Some(value: T)
  {
    function GetOr(default: T): T
    {
      match this
      case None => default
      case Some(v) => v
    }
  }

  /** `Err` carries the exception the Java code would throw, as a value. */
  datatype Result<T, E> = Ok(value: T) | Err(error: E)
}
