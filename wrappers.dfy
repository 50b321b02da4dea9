/** The optional value used wherever the modelled code may produce nothing
    (a parse that fails, a timestamp that is absent). */
module Wrappers {

  datatype Option<+T> = None | Some(value: T)

}
