/** A value that may be absent: JavaScript's optional properties and arrays. */
module Options {

  datatype Option<T> = None | Some(value: T)

}
