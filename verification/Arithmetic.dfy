/** Small facts about reals, ordered lists and finite sets that several components need. */
module Arithmetic {

  /** In ascending order. */
  ghost predicate Ascending(s: seq<real>) {
    forall i, j :: 0 <= i <= j < |s| ==> s[i] <= s[j]
  }

  lemma PositiveProduct(x: real, y: real)
    requires x > 0.0 && y > 0.0
    ensures x * y > 0.0
  {
  }

  lemma FactorSign(z: real, b: real)
    requires b > 0.0 && z * b >= 0.0
    ensures z >= 0.0
  {
  }

  lemma Distributes(x: real, y: real, z: real)
    ensures (x - y) * z == x * z - y * z
  {
  }

  lemma QuotientTimes(x: real, y: real)
    requires y != 0.0
    ensures (x / y) * y == x == y * (x / y)
  {
  }

  lemma QuotientSign(x: real, y: real)
    requires y > 0.0
    ensures x >= 0.0 ==> x / y >= 0.0
    ensures x > 0.0 ==> x / y > 0.0
  {
  }

  lemma SubsetSize<T>(a: set<T>, b: set<T>)
    requires a <= b
    ensures |a| <= |b|
  {
    assert b == a + (b - a);
  }
}
