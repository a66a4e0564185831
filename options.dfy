/** An optional value: a JavaScript `undefined`/`null` becomes `None`. */
module Options {
  datatype Option<+T> = None | Some(value: T)
}
