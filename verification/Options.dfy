/** A value that may be absent: Python's None, an absent attribute, a missing row. */
module Options {
  datatype Option<+T> = None | Some(value: T)
}
