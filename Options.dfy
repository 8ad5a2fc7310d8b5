/** Optional values and fallible results, the two wrapper types the explorer's
    Rust code uses everywhere (`Option<T>` and `Result<T, String>`). */
module Options {

  datatype Option<+T> = None | Some(value: T) {
    /** `Option::unwrap_or` */
    function UnwrapOr(default: T): T {
      match this
      case Some(v) => v
      case None => default
    }
  }

  /** A result whose error is a message, as every fallible call of the core
      returns after `e.to_string()`. */
  datatype Result<+T> = Success(value: T) | Failure(error: string)
}
