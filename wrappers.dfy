/** The optional value used where the dashboard gets no number (a missing upload,
    a pandas NaN, a rate that cannot be formed). */
module Wrappers {

  datatype Option<+T> = None | Some(value: T) {

    function GetOr(default: T): T
    {
      match this
      case Some(v) => v
      case None => default
    }
  }
}
