/** Optional values and results, used for JavaScript's missing or falsy
    values, for PHP's null, and for operations that can throw. */
module Optional {

  datatype Option<T> = None | Some(value: T) {
    /** The value, or `default` when there is none (PHP's `??`). */
    function GetOr(default: T): T {
      match this
      case Some(v) => v
      case None => default
    }
  }

  /** The outcome of an operation that may raise an exception. */
  datatype Result<T> = Ok(value: T) | Err(message: string)
}
