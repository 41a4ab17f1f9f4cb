/** An optional value: a missing JSON field, an absent session, a failed lookup. */
module Optional {
  datatype Option<T> = None | Some(value: T) {
    /** The value, or `default` when there is none (JavaScript `??`, PHP `??`). */
    function GetOr(default: T): (r: T)
      ensures Some? ==> r == value
      ensures None? ==> r == default
    {
      if Some? then value else default
    }
  }
}
