/** The three calls into Python's `random` module, as nondeterministic picks:
    every property proved about a caller holds for every value they may return.
    The distribution (uniformity) is not modelled. */
module Randomness {

  /** `random.choice(s)`: some element of a non-empty list. */
  method Choice<T(==)>(s: seq<T>) returns (x: T)
    requires |s| > 0
    ensures x in s
  {
    var k :| 0 <= k < |s|;
    x := s[k];
  }

  /** `random.randint(lo, hi)`: some integer of the inclusive range. */
  method RandInt(lo: int, hi: int) returns (n: int)
    requires lo <= hi
    ensures lo <= n <= hi
  {
    n :| lo <= n <= hi;
  }

  /** `x` is a position below `n` other than the two drawn before it. */
  predicate Avoids(n: nat, p0: nat, p1: nat, x: nat)
  {
    x < n && x != p0 && x != p1
  }

  /** `random.sample(population, 3)`, given as the positions of the three
      sampled items, in the order of the sample. */
  method SampleThree(n: nat) returns (ps: seq<nat>)
    requires 3 <= n
    ensures |ps| == 3
    ensures forall i :: 0 <= i < 3 ==> ps[i] < n
    ensures ps[0] != ps[1] && ps[0] != ps[2] && ps[1] != ps[2]
  {
    var p0: nat :| p0 < n;
    ghost var w1: nat := if p0 == 0 then 1 else 0;
    assert w1 < n && w1 != p0;
    var p1: nat :| p1 < n && p1 != p0;
    ghost var w2: nat := if 0 != p0 && 0 != p1 then 0 else if 1 != p0 && 1 != p1 then 1 else 2;
    assert Avoids(n, p0, p1, w2);
    var p2: nat :| Avoids(n, p0, p1, p2);
    assert Avoids(n, p0, p1, p2);
    ps := [p0, p1, p2];
  }
}
