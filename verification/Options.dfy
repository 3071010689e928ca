/** The optional values that stand for SQL NULL and for Go's nil pointers. */
module Options {
  datatype Option<+T> = None | Some(value: T)
}
