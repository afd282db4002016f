/** An optional value: a React prop that may be left undefined. */
module Optional {

  datatype Option<+T> = None | Some(value: T)

}
