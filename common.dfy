/** Small shared value types used by every component of the player stack. */
module Common {

  /** A nullable reference (a Transform, a Collider) seen as a value. */
  datatype Option<+T> = None | Some(value: T)

  /** No duplicates in a sequence: a List that is used as a set. */
  predicate NoDup<T(==)>(s: seq<T>)
  {
    forall i, j :: 0 <= i < j < |s| ==> s[i] != s[j]
  }

  function Max(a: real, b: real): (r: real)
    ensures r >= a && r >= b && (r == a || r == b)
  {
    if a >= b then a else b
  }

  function Min(a: real, b: real): (r: real)
    ensures r <= a && r <= b && (r == a || r == b)
  {
    if a <= b then a else b
  }
}
