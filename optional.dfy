/** The optional value used where the source returns None or stores an empty cell. */
module Optional {
  datatype Option<T> = None | Some(value: T)
}
