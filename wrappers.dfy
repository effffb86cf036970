/** Optional values: `None` stands for the C# `null` of a reference or a
    nullable value type. */
module Wrappers {

  datatype Option<+T> = None | Some(value: T)
}
