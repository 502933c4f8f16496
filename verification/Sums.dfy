/** Finite sums of reals, and the few laws the pooling proofs need. */
module Sums {

  ghost function Sum(n: nat, f: int -> real): real {
    if n == 0 then 0.0 else Sum(n - 1, f) + f(n - 1)
  }

  ghost function RowSum(m: nat, f: (int, int) -> real, i: int): real {
    Sum(m, j => f(i, j))
  }

  ghost function Sum2(n: nat, m: nat, f: (int, int) -> real): real {
    Sum(n, i => RowSum(m, f, i))
  }

  /** A product, hidden where the proofs only need the laws below. */
  ghost function Times(x: real, y: real): real {
    x * y
  }

  lemma TimesZero(x: real)
    ensures Times(0.0, x) == 0.0
  {
  }

  lemma TimesSwap(x: real, y: real)
    ensures Times(x, y) == Times(y, x)
  {
  }

  lemma TimesPlus(a: real, b: real, c: real)
    ensures Times(a + b, c) == Times(a, c) + Times(b, c)
  {
  }

  lemma {:induction false} SumSame(n: nat, f: int -> real, g: int -> real)
    requires forall k :: 0 <= k < n ==> f(k) == g(k)
    ensures Sum(n, f) == Sum(n, g)
  {
    if n > 0 {
      SumSame(n - 1, f, g);
    }
  }

  lemma {:induction false} SumAdd(n: nat, f: int -> real, g: int -> real, h: int -> real)
    requires forall k :: 0 <= k < n ==> h(k) == f(k) + g(k)
    ensures Sum(n, h) == Sum(n, f) + Sum(n, g)
  {
    if n > 0 {
      SumAdd(n - 1, f, g, h);
    }
  }

  lemma {:induction false} SumZero(n: nat, f: int -> real)
    requires forall k :: 0 <= k < n ==> f(k) == 0.0
    ensures Sum(n, f) == 0.0
  {
    if n > 0 {
      SumZero(n - 1, f);
    }
  }

  /** A sum whose terms vanish except at one place. */
  lemma {:induction false} SumSingle(n: nat, at: nat, f: int -> real)
    requires at < n && forall k :: 0 <= k < n && k != at ==> f(k) == 0.0
    ensures Sum(n, f) == f(at)
  {
    if at == n - 1 {
      SumZero(n - 1, f);
    } else {
      SumSingle(n - 1, at, f);
    }
  }

  /** A sum whose terms vanish outside [lo, lo + len). */
  lemma {:induction false} SumSegment(n: nat, lo: nat, len: nat, f: int -> real, h: int -> real)
    requires lo + len <= n
    requires forall k :: 0 <= k < n && !(lo <= k < lo + len) ==> f(k) == 0.0
    requires forall j :: 0 <= j < len ==> f(lo + j) == h(j)
    ensures Sum(n, f) == Sum(len, h)
  {
    if n > lo + len {
      SumSegment(n - 1, lo, len, f, h);
    } else if len == 0 {
      SumZero(n, f);
    } else {
      SumSegment(n - 1, lo, len - 1, f, h);
      assert f(lo + (len - 1)) == h(len - 1);
    }
  }

  lemma {:induction false} Sum2Same(n: nat, m: nat, f: (int, int) -> real, g: (int, int) -> real)
    requires forall i, j :: 0 <= i < n && 0 <= j < m ==> f(i, j) == g(i, j)
    ensures Sum2(n, m, f) == Sum2(n, m, g)
  {
    forall i | 0 <= i < n ensures RowSum(m, f, i) == RowSum(m, g, i) {
      SumSame(m, j => f(i, j), j => g(i, j));
    }
    SumSame(n, i => RowSum(m, f, i), i => RowSum(m, g, i));
  }

  lemma {:induction false} Sum2Add(n: nat, m: nat, f: (int, int) -> real, g: (int, int) -> real,
                                   h: (int, int) -> real)
    requires forall i, j :: 0 <= i < n && 0 <= j < m ==> h(i, j) == f(i, j) + g(i, j)
    ensures Sum2(n, m, h) == Sum2(n, m, f) + Sum2(n, m, g)
  {
    forall i | 0 <= i < n
      ensures RowSum(m, h, i) == RowSum(m, f, i) + RowSum(m, g, i)
    {
      SumAdd(m, j => f(i, j), j => g(i, j), j => h(i, j));
    }
    SumAdd(n, i => RowSum(m, f, i), i => RowSum(m, g, i), i => RowSum(m, h, i));
  }

  lemma {:induction false} Sum2Zero(n: nat, m: nat, f: (int, int) -> real)
    requires forall i, j :: 0 <= i < n && 0 <= j < m ==> f(i, j) == 0.0
    ensures Sum2(n, m, f) == 0.0
  {
    forall i | 0 <= i < n ensures RowSum(m, f, i) == 0.0 {
      SumZero(m, j => f(i, j));
    }
    SumZero(n, i => RowSum(m, f, i));
  }

  /** A double sum that lives on one segment of one row. */
  lemma {:induction false} Sum2Segment(n: nat, m: nat, at: nat, lo: nat, len: nat, f: (int, int) -> real,
                                       h: int -> real)
    requires at < n && lo + len <= m
    requires forall i, j :: 0 <= i < n && 0 <= j < m && !(i == at && lo <= j < lo + len) ==> f(i, j) == 0.0
    requires forall j :: 0 <= j < len ==> f(at, lo + j) == h(j)
    ensures Sum2(n, m, f) == Sum(len, h)
  {
    forall i | 0 <= i < n && i != at ensures RowSum(m, f, i) == 0.0 {
      SumZero(m, j => f(i, j));
    }
    SumSingle(n, at, i => RowSum(m, f, i));
    SumSegment(m, lo, len, j => f(at, j), h);
  }
}
