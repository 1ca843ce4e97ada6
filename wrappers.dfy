/** A value that may be absent: a DOM reference that is `null`, a theme name
    that is `undefined`. */
module Wrappers {

  datatype Option<+T> = None | Some(value: T)
}
