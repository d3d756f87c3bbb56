/** The optional-value type used throughout the model. */
module Wrappers {

  /** `None` stands for a JavaScript argument or property that is absent. */
  datatype Option<+T> = None | Some(value: T)
}
