/** The optional value used for the Navigator's optional slots and for the
    arguments the source leaves `undefined`. */
module Wrappers {

  /** `None` plays the part of a deleted or never-assigned property. */
  datatype Option<+T> = None | Some(value: T)
}
