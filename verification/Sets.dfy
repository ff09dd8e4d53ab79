/** Counting, and least elements. */
module Sets {

  lemma {:induction false} Smaller<T>(a: set<T>, b: set<T>)
    requires a <= b
    ensures |a| <= |b|
  {
    if a != {} {
      var x :| x in a;
      Smaller(a - {x}, b - {x});
    }
  }

  /** Some element of a non-empty set has the least key. */
  lemma {:induction false} Minimum<T>(s: set<T>, key: T -> int) returns (least: T)
    requires s != {}
    ensures least in s && forall x :: x in s ==> key(least) <= key(x)
    decreases |s|
  {
    var one :| one in s;
    least := one;
    assert s == (s - {one}) + {one};
    if s - {one} != {} {
      var rest := Minimum(s - {one}, key);
      if key(rest) < key(one) {
        least := rest;
      }
    }
  }
}
