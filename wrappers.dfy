/** Optional values: the model's stand-in for a C# reference that may be null. */
module Wrappers {

  datatype Option<+T> = None | Some(value: T)

  /** C#'s `x ?? y` on a string reference: the value of `x` when it is not null, otherwise `y`. */
  function Coalesce<T>(x: Option<T>, y: T): T
  {
    match x
    case Some(v) => v
    case None => y
  }
}
