/** Optional values: the model's stand-in for a JavaScript value that may be `null`/`undefined`. */
module Options {
  datatype Option<+T> = None | Some(value: T)
}
