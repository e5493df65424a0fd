/** The optional value used wherever the storefront returns `undefined` or `null`. */
module Wrappers {
  datatype Option<+T> = None | Some(value: T)
}
