/** Small shared definitions. */
module Util {
  datatype Option<+T> = None | Some(value: T)
}
