/** Sum pooling of embedding rows and its gradient, as sums over the looked-up terms. */
module Pooling {
  import opened Permutations
  import opened Sums

  /** One looked-up feature id: add `size` columns of row `row` of table `weight` to the output of `instance`,
      from column `offset` on. */
  datatype Term = Term(instance: int, weight: int, row: int, offset: int, size: int)

  /** Table, row and column to weight. */
  type Weights = (int, int, int) -> real

  /** Instance and output column to gradient. */
  type Grads = (int, int) -> real

  /** What one term adds to output cell (b, c). */
  ghost function Adds(t: Term, w: Weights, b: int, c: int): real {
    if t.instance == b && t.offset <= c < t.offset + t.size then w(t.weight, t.row, c - t.offset) else 0.0
  }

  /** Output cell (b, c) after pooling the terms. */
  ghost function PoolAt(ts: seq<Term>, w: Weights, b: int, c: int): real {
    if ts == [] then 0.0 else PoolAt(ts[..|ts| - 1], w, b, c) + Adds(ts[|ts| - 1], w, b, c)
  }

  /** What one term adds to cell (u, j) of table `wt`'s gradient slices. */
  ghost function Unadds(t: Term, unique: int, g: Grads, wt: int, u: int, j: int): real {
    if t.weight == wt && unique == u && 0 <= j < t.size then g(t.instance, t.offset + j) else 0.0
  }

  /** Cell (u, j) of table `wt`'s gradient slices after un-pooling; term `i` goes to slice `unique[i]`. */
  ghost function UnpoolAt(ts: seq<Term>, unique: seq<int>, g: Grads, wt: int, u: int, j: int): real
    requires |unique| == |ts|
  {
    if ts == [] then 0.0
    else
      var n := |ts| - 1;
      UnpoolAt(ts[..n], unique[..n], g, wt, u, j) + Unadds(ts[n], unique[n], g, wt, u, j)
  }

  /** The sizes of a lookup: output shape, and per table its slices, rows and width. */
  datatype Shape = Shape(batch: nat, columns: nat, tables: nat, slices: int -> nat, rows: int -> nat,
                         width: int -> nat)

  /** Every term lies inside the output and its slice carries the term's own row. */
  ghost predicate InShape(ts: seq<Term>, unique: seq<int>, hash: (int, int) -> int, s: Shape) {
    && |unique| == |ts|
    && forall i :: 0 <= i < |ts| ==>
         var t := ts[i];
         && 0 <= t.instance < s.batch && 0 <= t.size && 0 <= t.offset && t.offset + t.size <= s.columns
         && 0 <= t.weight < s.tables && t.size <= s.width(t.weight)
         && 0 <= unique[i] < s.slices(t.weight) && hash(t.weight, unique[i]) == t.row
         && 0 <= t.row < s.rows(t.weight)
  }

  // ---------------------------------------------------------------- the gradient is the adjoint

  /** Inner product of the pooled output with an output gradient. */
  ghost function PoolDot(ts: seq<Term>, w: Weights, g: Grads, s: Shape): real {
    Sum2(s.batch, s.columns, (b, c) => Times(PoolAt(ts, w, b, c), g(b, c)))
  }

  /** Inner product of table `wt` with its gradient slices, each slice standing for row `hash(wt, u)`. */
  ghost function SliceDot(ts: seq<Term>, unique: seq<int>, w: Weights, g: Grads, hash: (int, int) -> int, s: Shape,
                          wt: int): real
    requires |unique| == |ts|
  {
    Sum2(s.slices(wt), s.width(wt), (u, j) => Times(UnpoolAt(ts, unique, g, wt, u, j), w(wt, hash(wt, u), j)))
  }

  /** The same over all tables. */
  ghost function SlicesDot(ts: seq<Term>, unique: seq<int>, w: Weights, g: Grads, hash: (int, int) -> int,
                           s: Shape): real
    requires |unique| == |ts|
  {
    Sum(s.tables, wt => SliceDot(ts, unique, w, g, hash, s, wt))
  }

  /** What a single term contributes to either inner product. */
  ghost function TermDot(t: Term, w: Weights, g: Grads): real
    requires t.size >= 0
  {
    Sum(t.size, ColumnDots(t, w, g))
  }

  ghost function ColumnDots(t: Term, w: Weights, g: Grads): int -> real {
    j => Times(w(t.weight, t.row, j), g(t.instance, t.offset + j))
  }

  ghost function AddedDots(t: Term, w: Weights, g: Grads): (int, int) -> real {
    (b, c) => Times(Adds(t, w, b, c), g(b, c))
  }

  lemma AddedElsewhere(t: Term, w: Weights, g: Grads, b: int, c: int)
    requires !(b == t.instance && t.offset <= c < t.offset + t.size)
    ensures AddedDots(t, w, g)(b, c) == 0.0
  {
    TimesZero(g(b, c));
  }

  lemma AddedHere(t: Term, w: Weights, g: Grads, j: int)
    requires 0 <= j < t.size
    ensures AddedDots(t, w, g)(t.instance, t.offset + j) == ColumnDots(t, w, g)(j)
  {
    hide Times;
    var c := t.offset + j;
    assert c - t.offset == j;
    assert Adds(t, w, t.instance, c) == w(t.weight, t.row, c - t.offset) == w(t.weight, t.row, j);
  }

  /** What one term adds lives on one segment of one row of the output. */
  lemma AddsDot(t: Term, w: Weights, g: Grads, s: Shape)
    requires 0 <= t.instance < s.batch && 0 <= t.size && 0 <= t.offset && t.offset + t.size <= s.columns
    ensures Sum2(s.batch, s.columns, AddedDots(t, w, g)) == TermDot(t, w, g)
  {
    hide AddedDots, ColumnDots, Sum, Sum2;
    forall b, c | !(b == t.instance && t.offset <= c < t.offset + t.size) ensures AddedDots(t, w, g)(b, c) == 0.0 {
      AddedElsewhere(t, w, g, b, c);
    }
    forall j | 0 <= j < t.size ensures AddedDots(t, w, g)(t.instance, t.offset + j) == ColumnDots(t, w, g)(j) {
      AddedHere(t, w, g, j);
    }
    Sum2Segment(s.batch, s.columns, t.instance, t.offset, t.size, AddedDots(t, w, g), ColumnDots(t, w, g));
  }

  lemma PoolOneMore(ts: seq<Term>, t: Term, w: Weights, g: Grads, b: int, c: int)
    ensures Times(PoolAt(ts + [t], w, b, c), g(b, c))
         == Times(PoolAt(ts, w, b, c), g(b, c)) + Times(Adds(t, w, b, c), g(b, c))
  {
    hide Times, Adds;
    assert (ts + [t])[..|ts|] == ts;
    TimesPlus(PoolAt(ts, w, b, c), Adds(t, w, b, c), g(b, c));
  }

  lemma PoolDotStep(ts: seq<Term>, t: Term, w: Weights, g: Grads, s: Shape)
    requires 0 <= t.instance < s.batch && 0 <= t.size && 0 <= t.offset && t.offset + t.size <= s.columns
    ensures PoolDot(ts + [t], w, g, s) == PoolDot(ts, w, g, s) + TermDot(t, w, g)
  {
    hide Times, PoolAt, Adds, TermDot;
    var before := (b: int, c: int) => Times(PoolAt(ts, w, b, c), g(b, c));
    var added := AddedDots(t, w, g);
    var after := (b: int, c: int) => Times(PoolAt(ts + [t], w, b, c), g(b, c));
    forall b, c | 0 <= b < s.batch && 0 <= c < s.columns ensures after(b, c) == before(b, c) + added(b, c) {
      PoolOneMore(ts, t, w, g, b, c);
    }
    Sum2Add(s.batch, s.columns, before, added, after);
    AddsDot(t, w, g, s);
  }

  lemma UnpoolStep(ts: seq<Term>, unique: seq<int>, t: Term, u0: int, g: Grads, wt: int, u: int, j: int, x: real)
    requires |unique| == |ts|
    ensures Times(UnpoolAt(ts + [t], unique + [u0], g, wt, u, j), x)
         == Times(UnpoolAt(ts, unique, g, wt, u, j), x) + Times(Unadds(t, u0, g, wt, u, j), x)
  {
    hide Times, Unadds;
    assert (ts + [t])[..|ts|] == ts && (unique + [u0])[..|ts|] == unique;
    TimesPlus(UnpoolAt(ts, unique, g, wt, u, j), Unadds(t, u0, g, wt, u, j), x);
  }

  /** One term's slice lives on one row of the slices of its own table. */
  lemma UnaddsDot(t: Term, u0: int, w: Weights, g: Grads, hash: (int, int) -> int, s: Shape, wt: int)
    requires 0 <= t.size <= s.width(t.weight) && 0 <= u0 < s.slices(t.weight) && hash(t.weight, u0) == t.row
    ensures Sum2(s.slices(wt), s.width(wt), (u, j) => Times(Unadds(t, u0, g, wt, u, j), w(wt, hash(wt, u), j)))
         == if wt == t.weight then TermDot(t, w, g) else 0.0
  {
    var added := (u: int, j: int) => Times(Unadds(t, u0, g, wt, u, j), w(wt, hash(wt, u), j));
    hide Times;
    forall u, j | Unadds(t, u0, g, wt, u, j) == 0.0 ensures added(u, j) == 0.0 {
      TimesZero(w(wt, hash(wt, u), j));
    }
    forall j | 0 <= j < t.size
      ensures Times(w(t.weight, t.row, j), g(t.instance, t.offset + j))
           == Times(g(t.instance, t.offset + j), w(t.weight, t.row, j))
    {
      TimesSwap(w(t.weight, t.row, j), g(t.instance, t.offset + j));
    }
    if wt == t.weight {
      Sum2Segment(s.slices(wt), s.width(wt), u0, 0, t.size, added, ColumnDots(t, w, g));
    } else {
      Sum2Zero(s.slices(wt), s.width(wt), added);
    }
  }

  lemma SliceDotStep(ts: seq<Term>, unique: seq<int>, t: Term, u0: int, w: Weights, g: Grads,
                     hash: (int, int) -> int, s: Shape, wt: int)
    requires |unique| == |ts|
    requires 0 <= t.size <= s.width(t.weight) && 0 <= u0 < s.slices(t.weight) && hash(t.weight, u0) == t.row
    ensures SliceDot(ts + [t], unique + [u0], w, g, hash, s, wt)
         == SliceDot(ts, unique, w, g, hash, s, wt) + if wt == t.weight then TermDot(t, w, g) else 0.0
  {
    hide UnpoolAt, Unadds, TermDot, Times;
    var before := (u: int, j: int) => Times(UnpoolAt(ts, unique, g, wt, u, j), w(wt, hash(wt, u), j));
    var added := (u: int, j: int) => Times(Unadds(t, u0, g, wt, u, j), w(wt, hash(wt, u), j));
    var after := (u: int, j: int) => Times(UnpoolAt(ts + [t], unique + [u0], g, wt, u, j), w(wt, hash(wt, u), j));
    forall u, j | 0 <= u < s.slices(wt) && 0 <= j < s.width(wt) ensures after(u, j) == before(u, j) + added(u, j) {
      UnpoolStep(ts, unique, t, u0, g, wt, u, j, w(wt, hash(wt, u), j));
    }
    Sum2Add(s.slices(wt), s.width(wt), before, added, after);
    UnaddsDot(t, u0, w, g, hash, s, wt);
  }

  lemma SlicesDotStep(ts: seq<Term>, unique: seq<int>, t: Term, u0: int, w: Weights, g: Grads,
                      hash: (int, int) -> int, s: Shape)
    requires |unique| == |ts| && 0 <= t.weight < s.tables
    requires 0 <= t.size <= s.width(t.weight) && 0 <= u0 < s.slices(t.weight) && hash(t.weight, u0) == t.row
    ensures SlicesDot(ts + [t], unique + [u0], w, g, hash, s)
         == SlicesDot(ts, unique, w, g, hash, s) + TermDot(t, w, g)
  {
    var before := (wt: int) => SliceDot(ts, unique, w, g, hash, s, wt);
    var added := (wt: int) => if wt == t.weight then TermDot(t, w, g) else 0.0;
    var after := (wt: int) => SliceDot(ts + [t], unique + [u0], w, g, hash, s, wt);
    forall wt | 0 <= wt < s.tables ensures after(wt) == before(wt) + added(wt) {
      SliceDotStep(ts, unique, t, u0, w, g, hash, s, wt);
    }
    SumAdd(s.tables, before, added, after);
    SumSingle(s.tables, t.weight, added);
  }

  lemma NothingPooled(w: Weights, g: Grads, s: Shape)
    ensures PoolDot([], w, g, s) == 0.0
  {
    var cell := (b: int, c: int) => Times(PoolAt([], w, b, c), g(b, c));
    forall b, c ensures cell(b, c) == 0.0 {
      TimesZero(g(b, c));
    }
    Sum2Zero(s.batch, s.columns, cell);
  }

  lemma NothingUnpooled(w: Weights, g: Grads, hash: (int, int) -> int, s: Shape, wt: int)
    ensures SliceDot([], [], w, g, hash, s, wt) == 0.0
  {
    var cell := (u: int, j: int) => Times(UnpoolAt([], [], g, wt, u, j), w(wt, hash(wt, u), j));
    forall u, j ensures cell(u, j) == 0.0 {
      TimesZero(w(wt, hash(wt, u), j));
    }
    Sum2Zero(s.slices(wt), s.width(wt), cell);
  }

  /** The gradient slices are the adjoint of pooling, whatever the weights and the output gradient: repeated ids
      share a slice, and ids that hash to the same row occupy slices of that same row. */
  lemma {:induction false} GradientIsAdjoint(ts: seq<Term>, unique: seq<int>, w: Weights, g: Grads,
                                             hash: (int, int) -> int, s: Shape)
    requires InShape(ts, unique, hash, s)
    ensures PoolDot(ts, w, g, s) == SlicesDot(ts, unique, w, g, hash, s)
  {
    if ts == [] {
      NothingPooled(w, g, s);
      forall wt | 0 <= wt < s.tables ensures SliceDot(ts, unique, w, g, hash, s, wt) == 0.0 {
        NothingUnpooled(w, g, hash, s, wt);
      }
      SumZero(s.tables, wt => SliceDot(ts, unique, w, g, hash, s, wt));
    } else {
      var n := |ts| - 1;
      assert ts == ts[..n] + [ts[n]] && unique == unique[..n] + [unique[n]];
      GradientIsAdjoint(ts[..n], unique[..n], w, g, hash, s);
      PoolDotStep(ts[..n], ts[n], w, g, s);
      SlicesDotStep(ts[..n], unique[..n], ts[n], unique[n], w, g, hash, s);
    }
  }

  // ---------------------------------------------------------------- slices accumulated into dense rows

  /** Row `r`, column `j` of table `wt`'s gradient once slices that share a row are added up. */
  ghost function DenseAt(ts: seq<Term>, unique: seq<int>, g: Grads, hash: (int, int) -> int, wt: int, n: nat, r: int,
                         j: int): real
    requires |unique| == |ts|
  {
    Sum(n, u => if hash(wt, u) == r then UnpoolAt(ts, unique, g, wt, u, j) else 0.0)
  }

  ghost function DenseDot(ts: seq<Term>, unique: seq<int>, w: Weights, g: Grads, hash: (int, int) -> int, s: Shape,
                          wt: int, n: nat): real
    requires |unique| == |ts|
  {
    Sum2(s.rows(wt), s.width(wt), (r, j) => Times(DenseAt(ts, unique, g, hash, wt, n, r, j), w(wt, r, j)))
  }

  /** Adding up the first `n` slices row by row keeps the inner product with the table. */
  lemma {:induction false} DenseDotIsSliceDot(ts: seq<Term>, unique: seq<int>, w: Weights, g: Grads,
                                              hash: (int, int) -> int, s: Shape, wt: int, n: nat)
    requires |unique| == |ts| && n <= s.slices(wt)
    requires forall u :: 0 <= u < n ==> 0 <= hash(wt, u) < s.rows(wt)
    ensures DenseDot(ts, unique, w, g, hash, s, wt, n)
         == Sum2(n, s.width(wt), (u, j) => Times(UnpoolAt(ts, unique, g, wt, u, j), w(wt, hash(wt, u), j)))
  {
    hide Times, UnpoolAt;
    var slice := (u: int, j: int) => Times(UnpoolAt(ts, unique, g, wt, u, j), w(wt, hash(wt, u), j));
    var after := (r: int, j: int) => Times(DenseAt(ts, unique, g, hash, wt, n, r, j), w(wt, r, j));
    if n == 0 {
      forall r, j | 0 <= r < s.rows(wt) && 0 <= j < s.width(wt) ensures after(r, j) == 0.0 {
        TimesZero(w(wt, r, j));
      }
      Sum2Zero(s.rows(wt), s.width(wt), after);
    } else {
      DenseDotIsSliceDot(ts, unique, w, g, hash, s, wt, n - 1);
      var before := (r: int, j: int) => Times(DenseAt(ts, unique, g, hash, wt, n - 1, r, j), w(wt, r, j));
      var added := (r: int, j: int) =>
        Times(if hash(wt, n - 1) == r then UnpoolAt(ts, unique, g, wt, n - 1, j) else 0.0, w(wt, r, j));
      forall r, j | 0 <= r < s.rows(wt) && 0 <= j < s.width(wt)
        ensures after(r, j) == before(r, j) + added(r, j)
        ensures r != hash(wt, n - 1) ==> added(r, j) == 0.0
      {
        TimesZero(w(wt, r, j));
        TimesPlus(DenseAt(ts, unique, g, hash, wt, n - 1, r, j),
                   if hash(wt, n - 1) == r then UnpoolAt(ts, unique, g, wt, n - 1, j) else 0.0, w(wt, r, j));
      }
      Sum2Add(s.rows(wt), s.width(wt), before, added, after);
      Sum2Segment(s.rows(wt), s.width(wt), hash(wt, n - 1), 0, s.width(wt), added, j => slice(n - 1, j));
      SumSame(s.width(wt), j => slice(n - 1, j), j => slice(n - 1, j));
    }
  }

  /** The dense gradient is the adjoint of pooling: <pool(W), G> == <W, gradient>. */
  lemma DenseGradientIsAdjoint(ts: seq<Term>, unique: seq<int>, w: Weights, g: Grads, hash: (int, int) -> int,
                               s: Shape)
    requires InShape(ts, unique, hash, s)
    requires forall wt, u :: 0 <= wt < s.tables && 0 <= u < s.slices(wt) ==> 0 <= hash(wt, u) < s.rows(wt)
    ensures PoolDot(ts, w, g, s)
         == Sum(s.tables, wt => DenseDot(ts, unique, w, g, hash, s, wt, s.slices(wt)))
  {
    GradientIsAdjoint(ts, unique, w, g, hash, s);
    forall wt | 0 <= wt < s.tables
      ensures DenseDot(ts, unique, w, g, hash, s, wt, s.slices(wt)) == SliceDot(ts, unique, w, g, hash, s, wt)
    {
      DenseDotIsSliceDot(ts, unique, w, g, hash, s, wt, s.slices(wt));
    }
    SumSame(s.tables, wt => DenseDot(ts, unique, w, g, hash, s, wt, s.slices(wt)),
            wt => SliceDot(ts, unique, w, g, hash, s, wt));
  }

  // ---------------------------------------------------------------- order and sharding

  /** Pooling does not depend on the order of the terms. */
  lemma {:induction false} PoolWithout(ts: seq<Term>, w: Weights, b: int, c: int, i: nat)
    requires i < |ts|
    ensures PoolAt(ts, w, b, c) == PoolAt(ts[..i] + ts[i + 1..], w, b, c) + Adds(ts[i], w, b, c)
  {
    var n := |ts| - 1;
    var without := ts[..i] + ts[i + 1..];
    if i == n {
      assert without == ts[..n];
    } else {
      PoolWithout(ts[..n], w, b, c, i);
      assert without[..|without| - 1] == ts[..n][..i] + ts[..n][i + 1..];
      assert without[|without| - 1] == ts[n];
    }
  }

  lemma {:induction false} PoolOfPermutation(xs: seq<Term>, ys: seq<Term>, w: Weights, b: int, c: int)
    requires multiset(xs) == multiset(ys)
    ensures PoolAt(xs, w, b, c) == PoolAt(ys, w, b, c)
  {
    SameElements(xs, ys);
    if xs != [] {
      var i := MatchLast(xs, ys);
      PoolWithout(ys, w, b, c, i);
      PoolOfPermutation(xs[..|xs| - 1], ys[..i] + ys[i + 1..], w, b, c);
    }
  }

  /** The terms of shard `d` when row `v` lives on shard `v % n` as its row `v / n`. */
  ghost function ShardTerms(ts: seq<Term>, n: nat, d: int): (r: seq<Term>)
    requires n > 0
  {
    if ts == [] then []
    else
      var t := ts[|ts| - 1];
      ShardTerms(ts[..|ts| - 1], n, d) + if t.row % n == d then [t.(row := t.row / n)] else []
  }

  /** Shard `d` of undivided tables. */
  ghost function ShardWeights(w: Weights, n: nat, d: int): Weights {
    (wt, r, j) => w(wt, r * n + d, j)
  }

  lemma ShardStep(ts: seq<Term>, w: Weights, n: nat, b: int, c: int, d: int)
    requires n > 0 && ts != [] && 0 <= d < n
    ensures PoolAt(ShardTerms(ts, n, d), ShardWeights(w, n, d), b, c)
         == PoolAt(ShardTerms(ts[..|ts| - 1], n, d), ShardWeights(w, n, d), b, c)
            + if ts[|ts| - 1].row % n == d then Adds(ts[|ts| - 1], w, b, c) else 0.0
  {
    var front, t := ts[..|ts| - 1], ts[|ts| - 1];
    var shard := ShardTerms(ts, n, d);
    if t.row % n == d {
      assert shard[..|shard| - 1] == ShardTerms(front, n, d);
      assert (t.row / n) * n + d == t.row;
    } else {
      assert shard == ShardTerms(front, n, d);
    }
  }

  /** Pooling each shard's terms on its own rows and adding up is pooling on the undivided tables. */
  lemma {:induction false} ShardedPoolIsPool(ts: seq<Term>, w: Weights, n: nat, b: int, c: int)
    requires n > 0
    ensures Sum(n, d => PoolAt(ShardTerms(ts, n, d), ShardWeights(w, n, d), b, c)) == PoolAt(ts, w, b, c)
  {
    var after := (d: int) => PoolAt(ShardTerms(ts, n, d), ShardWeights(w, n, d), b, c);
    if ts == [] {
      SumZero(n, after);
    } else {
      var front, t := ts[..|ts| - 1], ts[|ts| - 1];
      ShardedPoolIsPool(front, w, n, b, c);
      var before := (d: int) => PoolAt(ShardTerms(front, n, d), ShardWeights(w, n, d), b, c);
      var added := (d: int) => if t.row % n == d then Adds(t, w, b, c) else 0.0;
      forall d | 0 <= d < n ensures after(d) == before(d) + added(d) {
        ShardStep(ts, w, n, b, c, d);
      }
      SumAdd(n, before, added, after);
      SumSingle(n, t.row % n, added);
    }
  }
}
