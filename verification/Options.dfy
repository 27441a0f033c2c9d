/** The optional value the modules of this project share: JavaScript's `undefined` or a value. */
module Options {
  datatype Option<+T> = None | Some(value: T) {
    function GetOr(default: T): T {
      match this
      case None => default
      case Some(v) => v
    }
  }
}
