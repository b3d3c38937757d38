/** Optional values, used across the project for the source's `Option` results. */
module Options {
  datatype Option<+T> = None | Some(value: T)
}
