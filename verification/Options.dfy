/** The optional value that stands for a nullable column, a missing key or Python's `None`. */
module Options {
  datatype Option<+T> = None | Some(value: T)
}
