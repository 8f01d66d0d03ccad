/** A value that may be absent: JavaScript's `undefined` or `null` result. */
module Options {

  datatype Option<+T> = None | Some(value: T)
}
