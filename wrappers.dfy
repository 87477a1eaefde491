/** Option and Result, the two ways the modelled code reports a missing value or a raised exception. */
module Wrappers {

  datatype Option<T> = None | Some(value: T)
  {
    function GetOr(default: T): T
    {
      match this
      case None => default
      case Some(v) => v
    }
  }

  /** `Failure(msg)` stands for a Python exception whose `str()` is `msg`. */
  datatype Result<T> = Success(value: T) | Failure(error: string)
}
