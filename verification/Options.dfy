// A value that may be missing, as the null pointers of the server.
module Options {

  datatype Option<T> = None | Some(value: T)
}
