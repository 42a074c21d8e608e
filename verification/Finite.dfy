/** Finite sets of indices. */
module Finite {

  function UpTo(n: nat): (r: set<nat>)
    ensures |r| == n
    ensures forall x: nat :: x in r <==> x < n
  {
    if n == 0 then {} else UpTo(n - 1) + {n - 1}
  }

  function Elements(l: seq<nat>): (r: set<nat>)
    ensures forall x :: x in r <==> x in l
    ensures (forall i, j :: 0 <= i < j < |l| ==> l[i] != l[j]) ==> |r| == |l|
  {
    if l == [] then {} else Elements(l[..|l| - 1]) + {l[|l| - 1]}
  }

  lemma {:induction false} Smaller(a: set<nat>, b: set<nat>)
    requires a <= b
    ensures |a| <= |b|
    decreases a
  {
    if a != {} {
      var x :| x in a;
      Smaller(a - {x}, b - {x});
    }
  }
}
