/** The usual optional value: used for "a request was issued, or none was". */
module Optional {
  datatype Option<+T> = None | Some(value: T)
}
