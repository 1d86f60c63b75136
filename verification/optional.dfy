/** The Some/None datatype used for values the source may leave absent
    (a missing JSON key, a hook field that is not present). */
module Optional {

  datatype Option<+T> = None | Some(value: T) {

    /** The carried value, or `default` when there is none. */
    function GetOr(default: T): T {
      match this
      case Some(v) => v
      case None => default
    }
  }
}
