/** A value that may be absent: the model of a TypeScript value that may be `undefined`. */
module Wrappers {

  datatype Option<+T> = None | Some(value: T)
  {
    /** The nullish-coalescing operator `this ?? fallback`: only an absent value
        falls through to the fallback, so a present `false` or `0` is kept. */
    function Coalesce(fallback: T): (r: T)
      ensures Some? ==> r == value
      ensures None? ==> r == fallback
    {
      match this
      case Some(v) => v
      case None => fallback
    }
  }
}
