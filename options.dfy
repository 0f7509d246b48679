/** The optional values of the app: a `T | undefined` or `T | null` in the source. */
module Options {

  datatype Option<+T> = None | Some(value: T)
}
