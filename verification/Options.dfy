/** An optional value: a nullable database column, or a value the source may leave undefined. */
module Options {

  datatype Option<+T> = None | Some(value: T)
}
