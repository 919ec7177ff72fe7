/** Optional values: JavaScript's `undefined`/`null`, Go's nil pointers and "not found" results. */
module Wrappers {

  datatype Option<+T> = None | Some(value: T)
  {
    /** The value if there is one, `default` otherwise (`o ?? default`). */
    function GetOr(default: T): T
    {
      if Some? then value else default
    }
  }

}
