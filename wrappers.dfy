/** Option and Result, the two wrappers every other module uses for JavaScript's
    null/undefined and for thrown errors. */
module Wrappers {
  datatype Option<T> = None | Some(value: T)
  {
    function GetOr(fallback: T): T
    {
      if Some? then value else fallback
    }
  }

  datatype Result<T, E> = Success(value: T) | Failure(error: E)
}
