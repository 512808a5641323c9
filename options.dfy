/** The optional value used for dictionary lookups and for a regular-expression group that did not take part in a match. */
module Options {
  datatype Option<+T> = None | Some(value: T)
}
