/** The optional value used for `find`, which yields an object or undefined,
    and for fields a document may leave out. */
module Options {
  datatype Option<+T> = None | Some(value: T) {
    function GetOr(default: T): T {
      match this
      case Some(v) => v
      case None => default
    }
  }
}
