/** The usual Some/None wrapper: a C pointer that may be NULL, or a host query that may fail. */
module Options {
  datatype Option<+T> = None | Some(value: T)
}
