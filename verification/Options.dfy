module Options {
  /** A pointer that may be NULL, or a result that may be absent. */
  datatype Option<+T> = None | Some(value: T)
}
