/** The optional value used for nullable handles and "not found" lookups. */
module Wrappers {

  datatype Option<+T> = None | Some(value: T) {

    /** This value if present, otherwise `fallback` (the contract only spells out the definition). */
    function Or(fallback: Option<T>): (r: Option<T>)
      ensures Some? ==> r == this
      ensures None? ==> r == fallback
    {
      if Some? then this else fallback
    }
  }
}
