/** Optional values. `None` stands for the NaN that the reducer pushes into a
    numeric column when a value is undefined. */
module Options {
  datatype Option<+T> = None | Some(value: T)
}
