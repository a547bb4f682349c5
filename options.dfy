/** The optional value used for nullable state and for "nothing was sent". */
module Options {

  datatype Option<T> = None | Some(value: T)
}
