/** Optional values: a JavaScript value that may be `undefined` or `null`. */
module Options {
  datatype Option<+T> = None | Some(value: T)
}
