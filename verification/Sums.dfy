/** Sums over the threads of a system, and how one thread's step changes them. */
module Sums {

  function Sum(ns: seq<nat>): nat { if ns == [] then 0 else ns[0] + Sum(ns[1..]) }

  lemma {:induction false} SumUpdate(ns: seq<nat>, i: nat, v: nat)
    requires i < |ns|
    ensures Sum(ns[i := v]) + ns[i] == Sum(ns) + v
  {
    var ms := ns[i := v];
    if i == 0 { assert ms[1..] == ns[1..]; } else {
      assert ms[1..] == ns[1..][i - 1 := v];
      SumUpdate(ns[1..], i - 1, v);
    }
  }

  lemma {:induction false} SumAtLeast(ns: seq<nat>, i: nat)
    requires i < |ns|
    ensures ns[i] <= Sum(ns)
  {
    if i > 0 { SumAtLeast(ns[1..], i - 1); }
  }

  lemma {:induction false} SumTwo(ns: seq<nat>, i: nat, j: nat)
    requires i < j < |ns|
    ensures ns[i] + ns[j] <= Sum(ns)
  {
    if i == 0 { SumAtLeast(ns[1..], j - 1); } else { SumTwo(ns[1..], i - 1, j - 1); }
  }

  lemma {:induction false} SumZero(ns: seq<nat>)
    requires forall i :: 0 <= i < |ns| ==> ns[i] == 0
    ensures Sum(ns) == 0
  {
    if ns != [] { SumZero(ns[1..]); }
  }

  lemma {:induction false} SumAtMost(ns: seq<nat>)
    requires forall i :: 0 <= i < |ns| ==> ns[i] <= 1
    ensures Sum(ns) <= |ns|
    ensures (exists i :: 0 <= i < |ns| && ns[i] == 0) ==> Sum(ns) < |ns|
  {
    if ns != [] { SumAtMost(ns[1..]); }
  }
}
