/** The optional value the register map hands back for an unknown path, and
    the decoders hand back for an unknown wire code. */
module Wrappers {

  datatype Option<+T> = None | Some(value: T)
}
