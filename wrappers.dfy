/** The optional value used wherever the page scripts test for `null`. */
module Wrappers {

  /** `None` stands for JavaScript's `null`: a missing element, attribute or stored key. */
  datatype Option<+T> = None | Some(value: T)
}
