/** The optional values used for SQL NULL and for absent rows. */
module Options {
  datatype Option<+T> = None | Some(value: T)
}
