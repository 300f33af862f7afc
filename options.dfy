/** The optional value every "first match" search of the games returns. */
module Options {
  datatype Option<T> = None | Some(value: T)
}
