/** The optional result used where the engine answers "nothing" (no saved assembly, an unknown name). */
module Wrappers {
  datatype Option<+T> = None | Some(value: T)
}
