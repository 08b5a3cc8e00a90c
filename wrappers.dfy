/** Optional values and the exceptions the modelled code can raise. */
module Wrappers {

  /** A value that may be absent (`undefined` in the source). */
  datatype Option<+T> = None | Some(value: T) {
    function GetOr(default: T): T {
      match this
      case Some(v) => v
      case None => default
    }
  }

  /** The kinds of JavaScript exception the modelled code raises or catches. */
  datatype JsError =
    | TypeError      // a property read on null, a call of a missing method
    | RangeError     // `toISOString` on an invalid date
    | FormatError    // the mapping layer's "Unable to process data format"
    | SyntaxError    // `JSON.parse` of malformed text
    | ReadError      // a file that cannot be read

  /** The outcome of code that may throw. */
  datatype Result<+T> = Ok(value: T) | Thrown(error: JsError) {
    predicate IsFailure() { Thrown? }
    function PropagateFailure<U>(): Result<U>
      requires Thrown?
    {
      Thrown(error)
    }
    function Extract(): T
      requires Ok?
    {
      value
    }
  }
}
