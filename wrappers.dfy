/** Optional values. Throughout the model `None` stands for JavaScript's
    `undefined`: a filter predicate that was not given, or a hook callback
    that returns nothing. */
module Wrappers {

  datatype Option<+T> = None | Some(value: T)
}
