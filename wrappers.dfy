/** An optional value, used for the source's optional fields and for lookups
    that may find nothing (`undefined` in the source). */
module Wrappers {

  datatype Option<+T> = None | Some(value: T)
}
