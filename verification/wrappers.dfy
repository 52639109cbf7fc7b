/** Optional values: `None` stands for JavaScript's `undefined` / `null`
    wherever the source uses them for "no value". */
module Wrappers {

  datatype Option<+T> = None | Some(value: T)
}
