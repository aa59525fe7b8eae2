/** Optional values: the model's counterpart of Python's `None`. */
module Wrappers {

  datatype Option<+T> = None | Some(value: T) {

    /** Returns the encapsulated value, or `default` for None. */
    function GetOr(default: T): T {
      match this
      case Some(v) => v
      case None => default
    }
  }

  /** Python truthiness of an optional path: present and not the empty string. */
  predicate Truthy(o: Option<string>) {
    o.Some? && o.value != ""
  }

  /** Python's `bool` used as an integer (`True` counts as 1). */
  function B2I(b: bool): (n: nat)
    ensures n <= 1 && (n == 1 <==> b)
  {
    if b then 1 else 0
  }
}
