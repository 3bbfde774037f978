/** The optional value the core's JavaScript expresses with `undefined`. */
module Options {
  datatype Option<+T> = None | Some(value: T)
}
