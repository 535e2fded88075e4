/** The option type used wherever the program has `undefined` or `null` for "nothing". */
module Options {
  datatype Option<+T> = None | Some(value: T)
}
