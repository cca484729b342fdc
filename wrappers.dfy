/** Small option type shared by the modules of this model. */
module Wrappers {

  /** `None` stands for JavaScript's `undefined` / Python's `None`. */
  datatype Option<+T> = None | Some(value: T) {

    /** The `??` operator: the value if present, otherwise `default`. */
    function GetOr(default: T): T {
      match this
      case Some(v) => v
      case None => default
    }
  }
}
