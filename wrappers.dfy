/** Optional values (Kotlin/Java nullable references) and results of
    operations that can fail (exceptions, Kotlin `Result`). */
module Wrappers {

  datatype Option<+T> = None | Some(value: T) {
    function GetOr(default: T): T {
      match this
      case Some(v) => v
      case None => default
    }
  }

  datatype Result<+T, +E> = Success(value: T) | Failure(error: E)
}
