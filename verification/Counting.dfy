/** Sizes of finite sets of naturals. */
module Counting {

  function Below(n: nat): (s: set<nat>)
    ensures forall x :: x in s <==> 0 <= x < n
    ensures |s| == n
  {
    if n == 0 then {} else Below(n - 1) + {n - 1}
  }

  lemma IntervalSize(lo: nat, hi: nat)
    requires lo <= hi
    ensures |Below(hi) - Below(lo)| == hi - lo
  {
    hide Below;
    assert Below(hi) == Below(lo) + (Below(hi) - Below(lo));
  }

  lemma SubsetOfSameSize<T>(a: set<T>, b: set<T>)
    requires a <= b && |a| == |b|
    ensures a == b
  {
    if a != b {
      var x :| x in b && x !in a;
      SubsetSize(a, b - {x});
    }
  }

  lemma {:induction false} SubsetSize<T>(a: set<T>, b: set<T>)
    requires a <= b
    ensures |a| <= |b|
    decreases |a|
  {
    if a != {} {
      var x :| x in a;
      SubsetSize(a - {x}, b - {x});
    }
  }
}
