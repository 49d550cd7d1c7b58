/** The JavaScript `null`/`undefined` of an optional value, and a JavaScript number
    where its finiteness matters. */
module Optional {

  /** An optional value: `None` stands for `null` or `undefined`. */
  datatype Option<T> = None | Some(value: T) {
    function GetOr(default: T): T {
      match this
      case Some(v) => v
      case None => default
    }
  }

  /** A JavaScript number: a finite value, or one of NaN and the two infinities,
      which `Number.isFinite` rejects alike. */
  datatype JsNumber = Finite(value: real) | NonFinite
}
