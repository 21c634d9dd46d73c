/** `Math.random()` as an input: a stream of values in [0, 1). */
module Random {

  predicate IsUnit(x: real)
  {
    0.0 <= x < 1.0
  }

  predicate IsRandomStream(rs: seq<real>)
  {
    forall i :: 0 <= i < |rs| ==> IsUnit(rs[i])
  }

  /** `Math.floor(r * n)`: a uniform draw of an index below `n`. */
  function Pick(r: real, n: nat): (k: int)
    requires IsUnit(r) && n > 0
    ensures 0 <= k < n
    ensures k as real <= r * n as real < k as real + 1.0
  {
    var x := r * n as real;
    UnitTimesBelow(r, n as real);
    FloorBelow(x, n);
    x.Floor
  }

  lemma UnitTimesBelow(r: real, m: real)
    requires IsUnit(r) && m > 0.0
    ensures 0.0 <= r * m < m
  {
    assert m - r * m == (1.0 - r) * m;
  }

  lemma FloorBelow(x: real, n: int)
    requires 0.0 <= x < n as real
    ensures 0 <= x.Floor < n
    ensures x.Floor as real <= x < x.Floor as real + 1.0
  {
  }
}
