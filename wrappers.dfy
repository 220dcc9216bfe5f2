/** Optional values: `None` stands for a C# `null` reference or an absent `int?`. */
module Wrappers {

  datatype Option<+T> = None | Some(value: T)
}
