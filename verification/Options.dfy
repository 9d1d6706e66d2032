/** A value that may be absent: a Go pointer that may be nil, a lookup that may miss. */
module Options {
  datatype Option<+T> = None | Some(value: T)
}
