/** The optional value used wherever the Go code has a nil-able pointer, map or error. */
module Options {
  datatype Option<+T> = None | Some(value: T)
}
