/** An optional value, for the pointers and the two-result lookups of the source. */
module Options {
  datatype Option<+T> = None | Some(value: T)
}
