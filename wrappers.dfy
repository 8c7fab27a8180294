/** Option type shared by the modules below: `None` stands for a value the
    source leaves `undefined` (or a lookup that finds nothing). */
module Wrappers {
  datatype Option<+T> = None | Some(value: T)
}
