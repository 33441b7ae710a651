/** Optional values, standing in for the nullable references (`null` client IDs,
    quantities and lookup results) of the modelled service. */
module Wrappers {

  datatype Option<+T> = None | Some(value: T)
}
