/** A value or none, as every other module uses it. */
module Options {
  datatype Option<+T> = None | Some(value: T)
}
