/** Optional values: a JavaScript `null`/`undefined` or a value that is present. */
module Outcomes {

  datatype Option<+T> = None | Some(value: T) {

    /** The value, or `default` when it is absent (`x ?? default`). */
    function GetOr(default: T): T
    {
      match this
      case Some(v) => v
      case None => default
    }
  }
}
