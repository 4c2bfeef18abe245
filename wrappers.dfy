/** The optional values the source represents with `null` / `None`. */
module Wrappers {

  datatype Option<+T> = None | Some(value: T)
}
