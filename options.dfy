/** An optional value, for the places where the source uses null. */
module Options {
  datatype Option<T> = None | Some(value: T)
}
