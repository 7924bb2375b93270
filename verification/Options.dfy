/** A value that may be absent: a pointer that may be nil, a lookup that may find nothing. */
module Options {
  datatype Option<+T> = None | Some(value: T)
}
