/** The optional value used by the readers that invert the model's renderings. */
module Wrappers {
  datatype Option<+T> = None | Some(value: T)
}
