/** A value that may be absent: Go's nil pointers and zero times. */
module Options {
  datatype Option<+T> = None | Some(value: T)
}
