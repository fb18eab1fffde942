/** JavaScript's `null`/`undefined` for a value that may be missing. */
module Optional {
  datatype Option<+T> = None | Some(value: T)
}
