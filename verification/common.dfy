/**
 Small shared vocabulary: optional values, byte strings and identifiers.
 */
module Common {

  /** The conventional optional value, standing in for Swift's `T?`. */
  datatype Option<+T> = None | Some(value: T) {

    /** The wrapped value, or `default` when there is none (Swift's `??`). */
    function GetOr(default: T): T
    {
      match this
      case Some(v) => v
      case None => default
    }
  }

  /** Raw file contents, as `Data` holds them. */
  type Bytes = seq<bv8>

  /**
   A `UUID`, represented by its canonical text (`uuidString`). Two UUIDs are
   equal exactly when their texts are, so the representation is faithful.
   */
  datatype Uuid = Uuid(uuidString: string)
}
