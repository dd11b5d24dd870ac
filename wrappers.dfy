/** Optional values: `None` stands for the `null` a C# member returns when it has nothing to give. */
module Wrappers {

  datatype Option<+T> = None | Some(value: T)
}
