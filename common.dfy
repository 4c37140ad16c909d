/** Small shared types: the optional value used wherever the Go code returns
    a value together with an `ok` flag or a possibly-nil error. */
module Common {

  datatype Option<+T> = None | Some(value: T) {
    function GetOr(default: T): T {
      match this
      case Some(v) => v
      case None => default
    }
  }
}
