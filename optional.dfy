/** A value that may be missing: the result of a parse that can fail. */
module Optional {
  datatype Option<T> = None | Some(value: T)
}
