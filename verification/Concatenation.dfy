/** Files laid end to end. */
module Concatenation {

  function Flat<T>(files: seq<seq<T>>): seq<T> {
    if files == [] then [] else Flat(files[..|files| - 1]) + files[|files| - 1]
  }

  /** Index of the first item of file `p`: the number of items before it. */
  function StartOf<T>(files: seq<seq<T>>, p: nat): nat
    requires p <= |files|
  {
    |Flat(files[..p])|
  }

  lemma StartOfFirst<T>(files: seq<seq<T>>)
    ensures StartOf(files, 0) == 0 && StartOf(files, |files|) == |Flat(files)|
  {
    assert files[..|files|] == files;
  }

  lemma StartOfNext<T>(files: seq<seq<T>>, p: nat)
    requires p < |files|
    ensures StartOf(files, p + 1) == StartOf(files, p) + |files[p]|
  {
    assert files[..p + 1][..p] == files[..p];
  }

  lemma {:induction false} StartOfGrows<T>(files: seq<seq<T>>, p: nat, q: nat)
    requires p <= q <= |files|
    ensures StartOf(files, p) <= StartOf(files, q)
    decreases q
  {
    if p < q {
      StartOfGrows(files, p, q - 1);
      StartOfNext(files, q - 1);
    }
  }

  lemma {:induction false} StartOfIncreases<T>(files: seq<seq<T>>, p: nat, q: nat)
    requires p < q <= |files| && forall k :: 0 <= k < |files| ==> files[k] != []
    ensures StartOf(files, p) < StartOf(files, q)
    decreases q
  {
    StartOfNext(files, q - 1);
    if p < q - 1 {
      StartOfIncreases(files, p, q - 1);
    }
  }

  lemma FlatMore<T>(files: seq<seq<T>>, more: seq<T>)
    ensures Flat(files + [more]) == Flat(files) + more
  {
    assert (files + [more])[..|files|] == files;
  }

  lemma StartOfMore<T>(files: seq<seq<T>>, more: seq<T>, p: nat)
    requires p <= |files|
    ensures StartOf(files + [more], p) == StartOf(files, p)
    ensures StartOf(files + [more], |files| + 1) == StartOf(files, |files|) + |more|
  {
    assert (files + [more])[..p] == files[..p];
    assert (files + [more])[..|files| + 1] == files + [more];
    assert files[..|files|] == files;
    FlatMore(files, more);
  }

  lemma {:induction false} PrefixOfAll<T>(files: seq<seq<T>>, p: nat)
    requires p <= |files|
    ensures Flat(files[..p]) <= Flat(files)
  {
    var n := |files| - 1;
    if p <= n {
      PrefixOfAll(files[..n], p);
      assert files[..n][..p] == files[..p];
    } else {
      assert files[..p] == files;
    }
  }

  /** Item `k` of file `p` is item StartOf(p) + k of all files laid end to end. */
  lemma {:induction false} ItemOfFile<T>(files: seq<seq<T>>, p: nat, k: nat)
    requires p < |files| && k < |files[p]|
    ensures StartOf(files, p) + k < |Flat(files)| && Flat(files)[StartOf(files, p) + k] == files[p][k]
  {
    var n := |files| - 1;
    if p < n {
      ItemOfFile(files[..n], p, k);
      assert files[..n][..p] == files[..p];
    } else {
      assert files[..p] == files[..n];
    }
  }
}
