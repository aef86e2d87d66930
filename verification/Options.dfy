/** A value that may be missing: a pointer that may be null, an answer that may not come. */
module Options {
  datatype Option<+T> = None | Some(value: T)
}
