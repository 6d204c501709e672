/** The PHP values the hierarchy code reads and compares. */
module Values {

  datatype Option<+T> = None | Some(value: T) {
    /** PHP's `??`: the value when present, the default otherwise. */
    function GetOr(default: T): T {
      match this
      case Some(v) => v
      case None => default
    }
  }

  /** A scalar that can stand in an id or parent column: an integer or a string.
      A PHP `null` is modelled by the absence of the key (both make `isset` false
      and `??` fall back). */
  datatype Scalar = Int(n: int) | Str(s: string)

  /** PHP truthiness of a scalar: `0`, `""` and `"0"` are the falsy ones. */
  predicate Falsy(v: Scalar) {
    v == Int(0) || v == Str("") || v == Str("0")
  }

  /** A record read by key, as `$item[$field]` reads an array or a model. */
  type Record = map<string, Scalar>
}
