/** Optional values: a null `Ref<...>` of the engine is `None`. */
module Wrappers {

  datatype Option<+T> = None | Some(value: T)
}
