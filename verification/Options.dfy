/** A value that may be absent: `undefined`, `null`, or no result. */
module Options {
  datatype Option<+T> = None | Some(value: T)
}
