/** A value that may be absent: a JavaScript `null` slot or a missing array cell. */
module Options {
  datatype Option<+T> = None | Some(value: T)
}
