/** Python's `None`-or-value, used wherever the source returns None. */
module Options {
  datatype Option<T> = None | Some(value: T)
}
