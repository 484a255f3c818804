/** The optional value used wherever the Kotlin source has a nullable type. */
module Options {
  datatype Option<+T> = None | Some(value: T)
}
