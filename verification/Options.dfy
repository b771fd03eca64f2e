/** Values that may be absent: the source's NULL pointers. */
module Options {
  datatype Option<+T> = None | Some(value: T)
}
