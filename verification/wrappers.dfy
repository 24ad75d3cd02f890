/** The optional-value datatype used throughout the model: Go's nil slices,
    nil interfaces and absent fields become `None`. */
module Wrappers {

  datatype Option<+T> = None | Some(value: T) {

    /** The carried value, with `fallback` standing in for an absent one. */
    function GetOr(fallback: T): (v: T)
      ensures Some? ==> v == value
      ensures None? ==> v == fallback
    {
      if Some? then value else fallback
    }
  }
}
