/** The optional value that the application expresses with `null`. */
module Optional {
  datatype Option<+T> = None | Some(value: T)
}
