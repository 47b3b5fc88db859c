/** An optional value: absent, or present with its value. */
module Options {
  datatype Option<T> = None | Some(value: T)
}
