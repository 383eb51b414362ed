/** Optional and fallible values shared by every module of the model. */
module Wrappers {
  /** A value that may be absent: a C# null reference, a missing map entry. */
  datatype Option<T> = None | Some(value: T) {
    /** The value, or `default` when it is absent (the `??` operator). */
    function GetOr(default: T): (r: T)
      ensures this.Some? ==> r == value
      ensures this.None? ==> r == default
    {
      match this
      case Some(v) => v
      case None => default
    }
  }

  /** The outcome of an operation that can fail with an error of type `E`. */
  datatype Result<T, E> = Success(value: T) | Failure(error: E)
}
