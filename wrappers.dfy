/** The optional value used throughout the model: Python's `None` and the
    exceptions the modelled code raises on a missing entry become `None`. */
module Wrappers {

  datatype Option<+T> = None | Some(value: T)

}
