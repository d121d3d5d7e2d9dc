/** A field JavaScript may leave `null`, or a game update that is not
    issued. */
module Optional {
  datatype Option<T> = None | Some(value: T)
}
