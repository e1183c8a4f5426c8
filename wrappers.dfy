/** Optional values and error-carrying results shared by every module. */
module Wrappers {
  datatype Option<T> = None | Some(value: T)
  {
    predicate IsSome() { Some? }

    function GetOr(default: T): T
    {
      match this
      case None => default
      case Some(v) => v
    }
  }

  /** `status` is the HTTP status of the backend's exceptions; client-side failures use 0. */
  datatype Result<T> = Ok(value: T) | Err(status: int, message: string)

  /**
   * A JSON array kept under one browser-storage key: the key is unset, its text does not
   * parse, or it parses to a list.
   */
  datatype Slot<T> = NoValue | Malformed | Parsed(items: seq<T>)
  {
    /** The list the source works on, with an unset key read as `[]`. */
    function Items(): seq<T>
    {
      if Parsed? then items else []
    }
  }
}
