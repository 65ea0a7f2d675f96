/** The optional-value datatype used for the view's nullable values
    (a lookup that returns `null`, a plan that may be absent). */
module Wrappers {

  /** Either nothing (`null` in the view) or a value. */
  datatype Option<+T> = None | Some(value: T)
}
