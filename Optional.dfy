/** The usual Some/None wrapper, used for Python's `None` results. */
module Optional {
  datatype Option<+T> = None | Some(value: T)
}
