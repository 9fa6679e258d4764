/** Outcome types shared by the generator: PHP's nullable parameters become
    `Option`, and the exceptions the generator throws become `Error` values
    carried by `Result`. */
module Errors {

  /** A nullable PHP parameter (`?int`, `?string`). */
  datatype Option<T> = None | Some(value: T) {
    /** PHP's `$x ?? $default`. */
    function GetOr(default: T): T {
      match this
      case Some(v) => v
      case None => default
    }
  }

  /** Which argument an `\InvalidArgumentException` complains about. */
  datatype Argument = Length | Count

  /** The three exceptions the generator can throw. */
  datatype Error =
    | InvalidCharset(charset: string)
    | InvalidArgument(argument: Argument)
    | InsufficientUniqueStrings(requested: int, generated: int)

  /** Either the value a PHP method returns or the exception it throws. */
  datatype Result<T> = Success(value: T) | Failure(error: Error)
}
