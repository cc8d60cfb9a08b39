/** An optional value: a JavaScript value that may be `undefined`, or `NaN` from a parse. */
module Options {
  datatype Option<+T> = None | Some(value: T)
}
