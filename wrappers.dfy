/** Option and Result, used for JavaScript's null/undefined and for thrown errors. */
module Wrappers {

  /** A value that may be absent (`undefined` or `null` in the source). */
  datatype Option<+T> = None | Some(value: T) {
    /** The value, or the given default when absent (the `??` and schema-default idiom). */
    function GetOr(default: T): T {
      match this
      case Some(v) => v
      case None => default
    }
  }

  /**
   * `after` is what a field becomes when an optional override `o` is applied to `before`: the
   * override's value when present, `before` otherwise.
   */
  predicate Overrides<T(==)>(o: Option<T>, before: T, after: T) {
    if o.Some? then after == o.value else after == before
  }

  /** Either a value or an error. */
  datatype Result<+T, +E> = Success(value: T) | Failure(error: E)
}
