/** Optional values: `None` stands for JavaScript's `undefined` and for a Python
    key that is absent. */
module Wrappers {

  datatype Option<+T> = None | Some(value: T)
}
