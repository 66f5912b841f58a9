/** Finite sums over integer ranges, the exact-arithmetic counterpart of the
    Python `sum(...)` calls and accumulation loops of the dice engine.
    `Sigma(f, lo, hi)` is f(lo) + ... + f(hi - 1). */
module Sums {

  function Sigma(f: int -> real, lo: int, hi: int): real
    decreases hi - lo
  {
    if hi <= lo then 0.0 else Sigma(f, lo, hi - 1) + f(hi - 1)
  }

  /** Sums of functions that agree on the range are equal. */
  lemma {:induction false} SigmaExt(f: int -> real, g: int -> real, lo: int, hi: int)
    requires forall i :: lo <= i < hi ==> f(i) == g(i)
    ensures Sigma(f, lo, hi) == Sigma(g, lo, hi)
    decreases hi - lo
  {
    if lo < hi {
      SigmaExt(f, g, lo, hi - 1);
    }
  }

  /** Peeling the lowest term instead of the highest. */
  lemma {:induction false} SigmaLow(f: int -> real, lo: int, hi: int)
    requires lo < hi
    ensures Sigma(f, lo, hi) == f(lo) + Sigma(f, lo + 1, hi)
    decreases hi - lo
  {
    if lo + 1 < hi {
      SigmaLow(f, lo, hi - 1);
    }
  }

  lemma {:induction false} SigmaSplit(f: int -> real, lo: int, mid: int, hi: int)
    requires lo <= mid <= hi
    ensures Sigma(f, lo, hi) == Sigma(f, lo, mid) + Sigma(f, mid, hi)
    decreases hi - mid
  {
    if mid < hi {
      SigmaSplit(f, lo, mid, hi - 1);
    }
  }

  /** Termwise addition: h = f + g on the range. */
  lemma {:induction false} SigmaAdd(f: int -> real, g: int -> real, h: int -> real, lo: int, hi: int)
    requires forall i :: lo <= i < hi ==> h(i) == f(i) + g(i)
    ensures Sigma(h, lo, hi) == Sigma(f, lo, hi) + Sigma(g, lo, hi)
    decreases hi - lo
  {
    if lo < hi {
      SigmaAdd(f, g, h, lo, hi - 1);
    }
  }

  /** A constant factor moves out of the sum: h = c * f on the range. */
  lemma {:induction false} SigmaScale(c: real, f: int -> real, h: int -> real, lo: int, hi: int)
    requires forall i :: lo <= i < hi ==> h(i) == c * f(i)
    ensures Sigma(h, lo, hi) == c * Sigma(f, lo, hi)
    decreases hi - lo
  {
    if lo < hi {
      SigmaScale(c, f, h, lo, hi - 1);
      assert Sigma(h, lo, hi) == c * Sigma(f, lo, hi - 1) + c * f(hi - 1);
    }
  }

  lemma {:induction false} SigmaConst(c: real, f: int -> real, lo: int, hi: int)
    requires lo <= hi
    requires forall i :: lo <= i < hi ==> f(i) == c
    ensures Sigma(f, lo, hi) == (hi - lo) as real * c
    decreases hi - lo
  {
    if lo < hi {
      SigmaConst(c, f, lo, hi - 1);
    }
  }

  lemma {:induction false} SigmaZero(f: int -> real, lo: int, hi: int)
    requires forall i :: lo <= i < hi ==> f(i) == 0.0
    ensures Sigma(f, lo, hi) == 0.0
    decreases hi - lo
  {
    if lo < hi {
      SigmaZero(f, lo, hi - 1);
    }
  }

  lemma {:induction false} SigmaNonNeg(f: int -> real, lo: int, hi: int)
    requires forall i :: lo <= i < hi ==> f(i) >= 0.0
    ensures Sigma(f, lo, hi) >= 0.0
    decreases hi - lo
  {
    if lo < hi {
      SigmaNonNeg(f, lo, hi - 1);
    }
  }

  /** A sum of non-negative terms dominates each of its terms. */
  lemma {:induction false} SigmaDominates(f: int -> real, lo: int, hi: int, p: int)
    requires forall i :: lo <= i < hi ==> f(i) >= 0.0
    requires lo <= p < hi
    ensures Sigma(f, lo, hi) >= f(p)
  {
    SigmaSplit(f, lo, p, hi);
    SigmaNonNeg(f, lo, p);
    SigmaLow(f, p, hi);
    SigmaNonNeg(f, p + 1, hi);
  }

  /** Only the term at p is non-zero. */
  lemma SigmaSingle(f: int -> real, lo: int, hi: int, p: int)
    requires lo <= p < hi
    requires forall i :: lo <= i < hi && i != p ==> f(i) == 0.0
    ensures Sigma(f, lo, hi) == f(p)
  {
    SigmaSplit(f, lo, p, hi);
    SigmaZero(f, lo, p);
    SigmaLow(f, p, hi);
    SigmaZero(f, p + 1, hi);
  }

  /** Extending the upper bound over zero terms changes nothing. */
  lemma SigmaExtendZero(f: int -> real, lo: int, mid: int, hi: int)
    requires lo <= mid <= hi
    requires forall i :: mid <= i < hi ==> f(i) == 0.0
    ensures Sigma(f, lo, hi) == Sigma(f, lo, mid)
  {
    SigmaSplit(f, lo, mid, hi);
    SigmaZero(f, mid, hi);
  }

  /** Re-indexing by a shift: g(i) = f(i + d). */
  lemma {:induction false} SigmaShift(f: int -> real, g: int -> real, lo: int, hi: int, d: int)
    requires forall i :: lo <= i < hi ==> g(i) == f(i + d)
    ensures Sigma(g, lo, hi) == Sigma(f, lo + d, hi + d)
    decreases hi - lo
  {
    if lo < hi {
      SigmaShift(f, g, lo, hi - 1, d);
    }
  }

  /** Re-indexing by a reflection: g(i) = f(n - 1 - i). */
  lemma {:induction false} SigmaReflect(f: int -> real, g: int -> real, n: nat)
    requires forall i :: 0 <= i < n ==> g(i) == f(n - 1 - i)
    ensures Sigma(g, 0, n) == Sigma(f, 0, n)
  {
    if n > 0 {
      var f' := (i: int) => f(i + 1);
      forall i | 0 <= i < n - 1
        ensures g(i) == f'(n - 2 - i)
      {
      }
      SigmaReflect(f', g, n - 1);
      SigmaShift(f, f', 0, n - 1, 1);
      SigmaLow(f, 0, n);
    }
  }

  /** A telescoping sum: f(k) = h(k) - h(k + 1). */
  lemma {:induction false} Telescope(h: int -> real, f: int -> real, n: nat)
    requires forall k :: 0 <= k < n ==> f(k) == h(k) - h(k + 1)
    ensures Sigma(f, 0, n) == h(0) - h(n)
  {
    if n > 0 {
      Telescope(h, f, n - 1);
    }
  }

  // Helpers for the double sums below.
  function Row(g: (int, int) -> real, m: int): int -> real
  {
    i => g(i, m)
  }

  function Col(g: (int, int) -> real, i: int): int -> real
  {
    m => g(i, m)
  }

  /** m |-> sum over 0 <= i <= m of g(i, m) */
  function Tri(g: (int, int) -> real): int -> real
  {
    m => Sigma(Row(g, m), 0, m + 1)
  }

  /** i |-> sum over i <= m < n of g(i, m) */
  function Rect(g: (int, int) -> real, n: int): int -> real
  {
    i => Sigma(Col(g, i), i, n)
  }

  /** Exchanging the order of summation over the triangle 0 <= i <= m < n. */
  lemma {:induction false} SigmaTriangle(g: (int, int) -> real, n: nat)
    ensures Sigma(Tri(g), 0, n) == Sigma(Rect(g, n), 0, n)
  {
    if n > 0 {
      var m := n - 1;
      SigmaTriangle(g, m);
      forall i | 0 <= i < n
        ensures Rect(g, n)(i) == Rect(g, m)(i) + Row(g, m)(i)
      {
        if i < m {
          assert Sigma(Col(g, i), i, n) == Sigma(Col(g, i), i, m) + Col(g, i)(m);
        } else {
          assert Sigma(Col(g, i), i, m) == 0.0;
        }
      }
      SigmaAdd(Rect(g, m), Row(g, m), Rect(g, n), 0, n);
      assert Rect(g, m)(m) == 0.0;
      assert Sigma(Rect(g, m), 0, n) == Sigma(Rect(g, m), 0, m);
      assert Tri(g)(m) == Sigma(Row(g, m), 0, n);
    }
  }
}
