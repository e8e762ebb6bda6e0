/** The optional value used wherever a lookup may find nothing. */
module Options {

  datatype Option<T> = None | Some(value: T)
}
