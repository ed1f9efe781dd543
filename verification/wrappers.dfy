/** The Some/None datatype used for every optional manifest field and for a
    fixture read that may fail. */
module Wrappers {

  datatype Option<+T> = None | Some(value: T) {

    /** The carried value when there is one; `default` stands in for a
        missing field. */
    function GetOr(default: T): T {
      match this
      case Some(v) => v
      case None => default
    }
  }
}
