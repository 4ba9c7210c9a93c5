/** JavaScript values the dashboard's handlers inspect: a value that may be
    null or undefined, and the truthiness test the handlers apply to strings. */
module JsValues {

  /** A value that may be missing (null or undefined in the source). */
  datatype Option<+T> = None | Some(value: T)

  /** JavaScript truthiness of a string that may be missing: null, undefined
      and the empty string are falsy, every other string is truthy. */
  predicate Truthy(s: Option<string>)
  {
    s.Some? && s.value != ""
  }
}
