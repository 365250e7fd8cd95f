/** Small value types shared by the whole model: optional values, results
    with the compiler's error, and warnings. */
module Wrappers {

  datatype Option<+T> = None | Some(value: T) {
    /** `Option::unwrap_or`. */
    function GetOr(default: T): T {
      match this
      case Some(v) => v
      case None => default
    }
  }

  /** The compiler's error; its contents are not interpreted here. */
  datatype Error = Error(message: string)

  /** A compiler warning; its contents are not interpreted here. */
  datatype Warning = Warning(message: string)

  /** `Result<T, Error>` of the compiler crate. */
  datatype Result<+T> = Ok(value: T) | Err(error: Error)
}
