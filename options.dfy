/** An optional value: the model's rendering of a JavaScript `null` / `undefined`. */
module Options {
  datatype Option<+T> = None | Some(value: T)
}
