/** Small value types shared by the request and cache models. */
module Common {

  /** A nullable value: `None` stands for Objective-C `nil`. */
  datatype Option<+T> = None | Some(value: T) {
    function GetOr(default: T): T {
      match this
      case Some(v) => v
      case None => default
    }
  }

  /** Either a value or an error kind. */
  datatype Result<+R, +E> = Success(value: R) | Failure(error: E)

  /** The contents of an `NSData` object. */
  type Bytes = seq<bv8>
}
