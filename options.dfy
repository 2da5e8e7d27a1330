/** A value that may be absent: `undefined` or `null` on the JavaScript side. */
module Options {

  datatype Option<+T> = None | Some(value: T)

  /** A JavaScript string is truthy exactly when it is present and not empty. */
  predicate TruthyText(s: Option<string>) {
    s.Some? && s.value != ""
  }
}
