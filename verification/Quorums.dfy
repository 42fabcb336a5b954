/** Majorities: any two of them share a server. */
module Quorums {

  function Below(n: nat): (s: set<nat>)
    ensures forall i: nat :: i in s <==> i < n
    ensures |s| == n
  {
    if n == 0 then {} else Below(n - 1) + {n - 1}
  }

  ghost predicate IsQuorum(n: nat, q: set<nat>) {
    q <= Below(n) && 2 * |q| > n
  }

  lemma {:induction false} SubsetCount(a: set<nat>, b: set<nat>)
    requires a <= b
    ensures |a| <= |b|
  {
    if a != {} {
      var x :| x in a;
      SubsetCount(a - {x}, b - {x});
    }
  }

  lemma QuorumsMeet(n: nat, a: set<nat>, b: set<nat>) returns (v: nat)
    requires IsQuorum(n, a) && IsQuorum(n, b)
    ensures v in a && v in b
  {
    SubsetCount(a + b, Below(n));
    assert |a + b| == |a| + |b| - |a * b|;
    assert a * b != {};
    v :| v in a * b;
  }
}
