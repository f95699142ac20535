/** Values that may be absent, and the list idioms the other modules share. */
module Wrappers {

  datatype Option<+T> = None | Some(value: T) {
    /** The value, or the default if there is none. */
    function GetOr(default: T): T {
      match this
      case Some(v) => v
      case None => default
    }

    /** This value if there is one, else the other. */
    function OrElse(other: Option<T>): Option<T> {
      if this.Some? then this else other
    }
  }

  datatype Result<+T, +E> = Ok(value: T) | Err(error: E)

  /** JavaScript truthiness of a string that may be null or undefined. */
  predicate HasText(o: Option<string>) {
    o.Some? && o.value != ""
  }

  /** The distinct elements in the order of their first occurrence. */
  function Distinct<T(==,!new)>(xs: seq<T>): (r: seq<T>)
    ensures forall x :: x in r <==> x in xs
    ensures forall i, j :: 0 <= i < j < |r| ==> r[i] != r[j]
  {
    if xs == [] then []
    else
      var last := xs[|xs| - 1];
      var before := Distinct(xs[..|xs| - 1]);
      assert xs == xs[..|xs| - 1] + [last];
      if last in before then before else before + [last]
  }
}
