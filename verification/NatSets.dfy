/** Sizes of sets of indices, for the counting arguments of the transition systems. */
module NatSets {

  lemma {:induction false} SubsetSize(a: set<nat>, b: set<nat>)
    requires a <= b
    ensures |a| <= |b|
    decreases a
  {
    if x :| x in a { SubsetSize(a - {x}, b - {x}); }
  }

  lemma {:induction false} BoundedSize(a: set<nat>, n: nat)
    requires forall x | x in a :: x < n
    ensures |a| <= n
  {
    if n == 0 {
      assert a == {};
    } else {
      BoundedSize(a - {n - 1}, n - 1);
      assert |a| <= |a - {n - 1}| + 1;
    }
  }

  lemma {:induction false} FullSize(a: set<nat>, n: nat)
    requires forall x: nat :: x in a <==> x < n
    ensures |a| == n
  {
    if n == 0 {
      assert a == {};
    } else {
      FullSize(a - {n - 1}, n - 1);
    }
  }

  /** Two sets that agree everywhere but at `i`. */
  lemma SizeAfter(before: set<nat>, after: set<nat>, i: nat)
    requires forall k: nat | k != i :: k in before <==> k in after
    ensures |after| == |before| - (if i in before then 1 else 0) + (if i in after then 1 else 0)
  {
    var rest := before - {i};
    assert before == if i in before then rest + {i} else rest;
    assert after == if i in after then rest + {i} else rest;
  }

  lemma OneMore(a: set<nat>, x: nat)
    requires x !in a
    ensures |a + {x}| == |a| + 1
  {
  }
}
