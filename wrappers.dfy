/** The optional-value datatype shared by the component models. */
module Wrappers {

  /** `None` stands for a JavaScript value that is absent (`undefined`). */
  datatype Option<+T> = None | Some(value: T) {

    /** The encapsulated value, or `default` when absent. */
    function GetOr(default: T): (r: T)
      ensures Some? ==> r == value
      ensures None? ==> r == default
    {
      match this
      case Some(v) => v
      case None => default
    }
  }
}
