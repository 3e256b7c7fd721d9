/** The optional value shared by every module: a nullable column, or a refused operation. */
module Options {

  datatype Option<+T> = None | Some(value: T)
}
