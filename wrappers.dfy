/** The optional value used throughout the model: a result that may be
    absent (a missing answer, a failed conversion, an unset cache). */
module Wrappers {

  datatype Option<+T> = None | Some(value: T) {
    function GetOr(default: T): T {
      match this
      case Some(v) => v
      case None => default
    }
  }
}
