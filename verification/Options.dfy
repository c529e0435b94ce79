/** An optional value: a Go value that may be nil, a map lookup that may miss. */
module Options {
  datatype Option<+T> = None | Some(value: T)
}
