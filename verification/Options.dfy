// A value that may be missing, such as a nil pointer.
module Options {
  datatype Option<T> = None | Some(value: T)
}
