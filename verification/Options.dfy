/** The optional value used by every other module. */
module Options {
  datatype Option<+T> = None | Some(value: T)
}
