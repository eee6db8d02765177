/** Small value wrappers shared by the configuration model. */
module Wrappers {

  /** An optional value: a field that is either absent or holds a value. */
  datatype Option<+T> = None | Some(value: T) {

    /** The held value, or `default` when there is none. */
    function GetOr(default: T): (r: T)
      ensures Some? ==> r == value
      ensures None? ==> r == default
    {
      match this
      case Some(v) => v
      case None => default
    }
  }

  /**
   * A nullable option field: absent from the options object,
   * explicitly `null`, or holding a value.
   */
  datatype Nullable<+T> = Absent | Null | Present(value: T)
}
