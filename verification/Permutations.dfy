/** Sequences with the same elements in another order. */
module Permutations {

  /** The place in `ys` of the last element of `xs`: without the two, the rest still agree. */
  lemma MatchLast<T>(xs: seq<T>, ys: seq<T>) returns (i: nat)
    requires multiset(xs) == multiset(ys) && xs != []
    ensures i < |ys| && ys[i] == xs[|xs| - 1]
    ensures multiset(ys[..i] + ys[i + 1..]) == multiset(xs[..|xs| - 1])
    ensures |xs| == |ys|
  {
    var n := |xs| - 1;
    assert xs == xs[..n] + [xs[n]];
    assert xs[n] in multiset(ys);
    i :| i < |ys| && ys[i] == xs[n];
    assert ys == ys[..i] + [ys[i]] + ys[i + 1..];
    calc {
      multiset(ys[..i] + ys[i + 1..]) + multiset{ys[i]};
      multiset(ys[..i] + [ys[i]] + ys[i + 1..]);
      multiset(xs[..n] + [xs[n]]);
      multiset(xs[..n]) + multiset{xs[n]};
    }
    assert multiset(ys[..i] + ys[i + 1..]) == (multiset(ys[..i] + ys[i + 1..]) + multiset{ys[i]}) - multiset{ys[i]};
    assert multiset(xs[..n]) == (multiset(xs[..n]) + multiset{xs[n]}) - multiset{xs[n]};
    assert |multiset(xs)| == |xs| && |multiset(ys)| == |ys|;
  }

  lemma SameElements<T>(xs: seq<T>, ys: seq<T>)
    requires multiset(xs) == multiset(ys)
    ensures forall e :: e in xs <==> e in ys
    ensures |xs| == |ys|
  {
    assert forall e :: e in xs <==> e in multiset(xs);
    assert forall e :: e in ys <==> e in multiset(ys);
    assert |multiset(xs)| == |xs| && |multiset(ys)| == |ys|;
  }
}
