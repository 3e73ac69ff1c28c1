/** What several modules share: a value that may be absent, the smaller of two, subset sizes and numbers not in use. */
module Basics {
  datatype Option<+T> = None | Some(value: T)

  function Min(a: int, b: int): int { if a < b then a else b }

  lemma SubsetCardinality<T>(a: set<T>, b: set<T>)
    requires a <= b
    ensures |a| <= |b|
  {
    assert b == a + (b - a);
  }

  /** A number beyond all of a set: one that is not in use. */
  lemma {:induction false} Above(xs: set<nat>) returns (n: nat)
    ensures forall x :: x in xs ==> x < n
    decreases |xs|
  {
    if xs == {} {
      n := 0;
    } else {
      var x :| x in xs;
      var rest := Above(xs - {x});
      n := if rest > x then rest else x + 1;
      assert forall y :: y in xs ==> y == x || y in xs - {x};
    }
  }
}
