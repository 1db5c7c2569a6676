/** Optional values and fallible results, shared by every module. */
module Wrappers {
  datatype Option<T> = None | Some(value: T)
  {
    predicate IsSome() { Some? }

    function UnwrapOr(default: T): T
    {
      match this
      case Some(v) => v
      case None => default
    }
  }

  /** A fallible result whose error is a human-readable message. */
  datatype Result<T> = Ok(value: T) | Err(message: string)
}
