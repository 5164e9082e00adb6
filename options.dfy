/** Optional values: JavaScript's `null` / `undefined` where the source returns "nothing". */
module Options {
  datatype Option<T> = None | Some(value: T)
}
