/** The one generic value the modules share: a result that may be absent. */
module Options {
  datatype Option<+T> = None | Some(value: T)
}
