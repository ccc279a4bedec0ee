/** The optional value used where the source uses null. */
module Options {
  datatype Option<T> = None | Some(value: T)
}
