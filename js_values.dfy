/** JavaScript values the storefront code relies on: values that may be
    undefined or null, thrown errors, and the truthiness tests written as
    `!x` and `x || fallback`. */
module JsValues {

  /** A value that may be undefined or null (None). */
  datatype Option<+T> = None | Some(value: T)

  /** The outcome of a call that either returns a value or throws. */
  datatype Result<+T, +E> = Success(value: T) | Failure(error: E)

  /** A string is truthy when it is defined and not the empty string. */
  predicate TruthyString(s: Option<string>)
  {
    s.Some? && s.value != ""
  }

  /** A number is truthy when it is defined and not zero. */
  predicate TruthyNumber(n: Option<int>)
  {
    n.Some? && n.value != 0
  }
}
