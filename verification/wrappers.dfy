/** Optional values: an empty `std::function`, or an event that delivers nothing. */
module Wrappers {

  datatype Option<+T> = None | Some(value: T)

}
