/** The usual optional value: a missing dictionary key, a failed encoding. */
module Options {
  datatype Option<+T> = None | Some(value: T)
}
