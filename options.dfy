/** The optional value used wherever the source returns `None` or an object. */
module Options {
  datatype Option<T> = None | Some(value: T)
}
