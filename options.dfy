/** An optional value: a request property that may be absent, or a nullable column. */
module Options {

  datatype Option<+T> = None | Some(value: T)
}
