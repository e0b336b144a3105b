/** Small value types shared by every part of the model. */
module Values {

  /** A value that may be absent: JavaScript's `undefined` (or a cache miss) is `None`. */
  datatype Option<+T> = None | Some(value: T) {

    /** The value, or `default` when absent. */
    function GetOr(default: T): T {
      match this
      case Some(v) => v
      case None => default
    }
  }

  /** Raw file content, as Node's `Buffer` holds it. */
  type Bytes = seq<bv8>
}
