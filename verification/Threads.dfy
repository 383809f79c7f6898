/** Counting and summing: over the program counters of an arbitrary number of threads, and over sets. */
module Threads {

  function Sum<P>(pcs: seq<P>, weight: P -> nat): (total: nat) {
    if pcs == [] then 0 else weight(pcs[0]) + Sum(pcs[1..], weight)
  }

  lemma {:induction false} SumUpdate<P>(pcs: seq<P>, weight: P -> nat, i: nat, pc: P)
    requires i < |pcs|
    ensures Sum(pcs[i := pc], weight) + weight(pcs[i]) == Sum(pcs, weight) + weight(pc)
  {
    var qs := pcs[i := pc];
    if i == 0 {
      assert qs[1..] == pcs[1..];
    } else {
      assert qs[1..] == pcs[1..][i - 1 := pc];
      SumUpdate(pcs[1..], weight, i - 1, pc);
    }
  }

  lemma {:induction false} SumAtLeast<P>(pcs: seq<P>, weight: P -> nat, i: nat)
    requires i < |pcs|
    ensures weight(pcs[i]) <= Sum(pcs, weight)
  {
    if i > 0 {
      SumAtLeast(pcs[1..], weight, i - 1);
    }
  }

  lemma {:induction false} SumAtMost<P>(pcs: seq<P>, weight: P -> nat)
    requires forall i :: 0 <= i < |pcs| ==> weight(pcs[i]) <= 1
    ensures Sum(pcs, weight) <= |pcs|
  {
    if pcs != [] {
      SumAtMost(pcs[1..], weight);
    }
  }

  lemma {:induction false} SumZero<P>(pcs: seq<P>, weight: P -> nat)
    requires forall i :: 0 <= i < |pcs| ==> weight(pcs[i]) == 0
    ensures Sum(pcs, weight) == 0
  {
    if pcs != [] {
      SumZero(pcs[1..], weight);
    }
  }

  lemma SubsetSize<T>(a: set<T>, b: set<T>)
    requires a <= b
    ensures |a| <= |b|
  {
    assert b == a + (b - a);
  }
}
