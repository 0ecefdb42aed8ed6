/** A value that may be missing: a failed operation, an absent entry. */
module Options {
  datatype Option<+T> = None | Some(value: T)
}
