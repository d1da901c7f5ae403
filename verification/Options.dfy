/** The optional value used across the model. */
module Options {
  datatype Option<+T> = None | Some(value: T)
}
