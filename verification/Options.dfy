/** The absent-or-present datatype shared by every module. */
module Options {

  datatype Option<+T> = None | Some(value: T) {

    /** The value when present, otherwise the default. */
    function GetOr(default: T): T {
      match this
      case Some(v) => v
      case None => default
    }
  }
}
