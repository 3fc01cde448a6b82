/** The optional value used for inputs that may be missing (Python's `None`). */
module Options {
  datatype Option<+T> = None | Some(value: T)
}
