/** The optional value the rest of the model uses for `undefined`. */
module Options {
  datatype Option<+T> = None | Some(value: T)
}
