/** Optional values: a missing parse result, an absent texture, no active decal. */
module Options {
  datatype Option<+T> = None | Some(value: T)
}
