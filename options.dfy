/** The conventional Some/None datatype, standing for JavaScript's
    "value or null/undefined". */
module Options {

  datatype Option<+T> = None | Some(value: T)

  /** JavaScript truthiness of a string that may be null or undefined:
      null, undefined and the empty string are falsy. */
  predicate Truthy(s: Option<string>) {
    s.Some? && s.value != ""
  }
}
