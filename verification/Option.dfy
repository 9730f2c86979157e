/** An optional value, for the source's undefined and null. */
module Option {
  datatype Option<+T> = None | Some(value: T)
}
