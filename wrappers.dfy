/** Option, for the source's optional fields (`subType?`, `winner?`, `selectedCard?`) and `null` results. */
module Wrappers {
  datatype Option<+T> = None | Some(value: T)
}
