/** The usual optional-value wrapper, used for JavaScript's `undefined`. */
module Options {
  datatype Option<+T> = None | Some(value: T)
}
