/** A nullable value, as `useState<string | null>` holds it. */
module Wrappers {

  datatype Option<+T> = None | Some(value: T)
}
