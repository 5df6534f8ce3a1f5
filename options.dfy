/** Optional values: the model's stand-in for JavaScript's `null` and `undefined`. */
module Options {

  datatype Option<+T> = None | Some(value: T)
}
