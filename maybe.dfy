/** The optional value used wherever a Go function can fail without a value. */
module Maybe {

  datatype Option<T> = None | Some(value: T)
}
