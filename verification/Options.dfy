/** The one datatype every module shares: a value that may be missing. */
module Options {
  datatype Option<+T> = None | Some(value: T)
}
