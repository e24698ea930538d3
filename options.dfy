/** An optional value: a host callback that reported nothing (or failed) is `None`. */
module Options {
  datatype Option<+T> = None | Some(value: T)
}
