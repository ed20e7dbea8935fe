module Options {
  /** A value, or a null pointer. */
  datatype Option<T> = None | Some(value: T)
}
