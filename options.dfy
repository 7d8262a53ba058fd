/** A value that may be absent: a JSON field that was left out or sent as null. */
module Options {
  datatype Option<+T> = None | Some(value: T)
}
