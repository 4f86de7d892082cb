/** The option type shared by all modules. */
module Common {
  datatype Option<+T> = None | Some(value: T)

  /** A nullable string as it appears on the wire, where null and the empty string look alike. */
  function OrEmpty(o: Option<string>): string {
    if o.None? then "" else o.value
  }

  predicate Truthy(o: Option<string>) {
    o.Some? && o.value != ""
  }
}
