/** The optional value used where the application keeps a pointer that may be null. */
module Options {
  datatype Option<+T> = None | Some(value: T)
}
