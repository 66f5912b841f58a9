/** The weight lists held by a `Die` (its `_sides`), with exact real weights:
    construction, convolution (`__add__`), `duplicate`, the survival table
    (`_reach`) and the head-to-head probabilities. The index of a weight is
    the outcome it stands for. */
module Distribution {
  import opened Sums

  /** The exceptions `Die.__init__` can raise. */
  datatype Error =
    | InvalidProbabilities   // ValueError('Invalid probabilities.')
    | NegativeSides          // ValueError for a negative side count
    | NotListOrInt           // TypeError, also raised for a Die argument
    | TrimIndexError         // IndexError of the trailing-zero loop as written

  datatype Result<T> = Ok(value: T) | Err(error: Error)

  function Min(x: int, y: int): int
  {
    if x <= y then x else y
  }

  /** The weight of outcome i, zero outside the list. */
  function At(w: seq<real>, i: int): real
  {
    if 0 <= i < |w| then w[i] else 0.0
  }

  function Ext(w: seq<real>): int -> real
  {
    i => At(w, i)
  }

  function Sum(w: seq<real>): real
  {
    Sigma(Ext(w), 0, |w|)
  }

  predicate NonNegative(w: seq<real>)
  {
    forall i :: 0 <= i < |w| ==> w[i] >= 0.0
  }

  /** What every successfully constructed Die holds: a non-empty list of
      non-negative weights summing to one whose highest outcome is possible. */
  predicate IsDie(w: seq<real>)
  {
    |w| > 0 && NonNegative(w) && Sum(w) == 1.0 && w[|w| - 1] > 0.0
  }

  /** `max_side()` */
  function MaxSide(w: seq<real>): int
  {
    |w| - 1
  }

  lemma SumBeyond(w: seq<real>, n: int)
    requires n >= |w|
    ensures Sigma(Ext(w), 0, n) == Sum(w)
  {
    SigmaExtendZero(Ext(w), 0, |w|, n);
  }

  lemma SumPrefix(w: seq<real>, n: int)
    requires 0 <= n <= |w|
    ensures Sum(w[..n]) == Sigma(Ext(w), 0, n)
  {
    SigmaExt(Ext(w[..n]), Ext(w), 0, n);
  }

  lemma SumNonNegative(w: seq<real>, lo: int, hi: int)
    requires NonNegative(w)
    ensures Sigma(Ext(w), lo, hi) >= 0.0
  {
    SigmaNonNeg(Ext(w), lo, hi);
  }

  // ---------------------------------------------------------------------------
  // Fair dice and constants

  function Zeros(n: nat): seq<real>
  {
    seq(n, _ => 0.0)
  }

  /** `Die(n)` for n >= 0: outcome 0 impossible, outcomes 1..n equally likely;
      `Die(0)` is the constant 0. */
  function Fair(n: nat): seq<real>
  {
    if n == 0 then [1.0] else [0.0] + seq(n, _ => 1.0 / n as real)
  }

  lemma FairIsDie(n: nat)
    ensures IsDie(Fair(n)) && |Fair(n)| == n + 1
    ensures n > 0 ==> Fair(n)[0] == 0.0 && forall i :: 1 <= i <= n ==> Fair(n)[i] == 1.0 / n as real
  {
    var w := Fair(n);
    if n > 0 {
      SigmaLow(Ext(w), 0, n + 1);
      SigmaConst(1.0 / n as real, Ext(w), 1, n + 1);
      assert (n as real) * (1.0 / n as real) == 1.0;
    }
  }

  /** `Die.const(v)`: certainly v; a negative v gives the constant 0. */
  function Const(v: int): seq<real>
  {
    Zeros(if v < 0 then 0 else v) + [1.0]
  }

  /** `const(v)` builds `[0.0]*v + [1.0]` and passes it through the list
      constructor, which leaves it as it is. */
  lemma ConstIsDie(v: int)
    ensures Normalize(Zeros(if v < 0 then 0 else v) + [1.0]) == Ok(Const(v))
    ensures IsDie(Const(v))
    ensures v >= 0 ==> |Const(v)| == v + 1 && Const(v)[v] == 1.0
    ensures forall i :: 0 <= i < |Const(v)| - 1 ==> Const(v)[i] == 0.0
    ensures v <= 0 ==> Const(v) == [1.0]
  {
    var w := Const(v);
    SigmaSingle(Ext(w), 0, |w|, |w| - 1);
    var r := Normalize(w);
    assert r.Ok? && |r.value| == |w|;
    assert r.value == w by {
      forall i | 0 <= i < |w| ensures r.value[i] == w[i] {
        assert At(r.value, i) == w[i] / 1.0;
      }
    }
  }

  // ---------------------------------------------------------------------------
  // The list constructor

  function Scale(w: seq<real>, t: real): (r: seq<real>)
    requires t != 0.0
    ensures |r| == |w|
  {
    seq(|w|, i requires 0 <= i < |w| => w[i] / t)
  }

  /** The trailing-zero loop as its authors meant it: drop every trailing
      weight that is not positive. */
  function TrimZeros(w: seq<real>): (r: seq<real>)
    ensures |r| <= |w| && r == w[..|r|]
    ensures forall i :: |r| <= i < |w| ==> !(w[i] > 0.0)
    ensures |r| > 0 ==> r[|r| - 1] > 0.0
  {
    if |w| > 0 && !(w[|w| - 1] > 0.0) then TrimZeros(w[..|w| - 1]) else w
  }

  lemma ScaleSum(w: seq<real>, t: real)
    requires t != 0.0
    ensures Sum(Scale(w, t)) == (1.0 / t) * Sum(w)
  {
    var s := Scale(w, t);
    forall i | 0 <= i < |w| ensures Ext(s)(i) == (1.0 / t) * Ext(w)(i) {
      assert w[i] / t == (1.0 / t) * w[i];
    }
    SigmaScale(1.0 / t, Ext(w), Ext(s), 0, |w|);
  }

  lemma TrimSum(w: seq<real>)
    requires NonNegative(w)
    ensures Sum(TrimZeros(w)) == Sum(w)
  {
    var r := TrimZeros(w);
    SigmaExt(Ext(r), Ext(w), 0, |r|);
    SigmaExtendZero(Ext(w), 0, |r|, |w|);
  }

  lemma ScaledNonNegative(ws: seq<real>, t: real)
    requires NonNegative(ws) && t > 0.0
    ensures NonNegative(Scale(ws, t))
    ensures forall i :: 0 <= i < |ws| ==> (Scale(ws, t)[i] > 0.0 <==> ws[i] > 0.0)
  {
    var s := Scale(ws, t);
    forall i | 0 <= i < |s| ensures s[i] >= 0.0 && (s[i] > 0.0 <==> ws[i] > 0.0) {
      assert s[i] == ws[i] / t;
    }
  }

  /** Scaling by the total and trimming trailing zeros gives a die that is
      proportional to the input. */
  lemma ScaledTrimmed(ws: seq<real>)
    requires |ws| > 0 && NonNegative(ws) && Sum(ws) != 0.0
    ensures Sum(ws) > 0.0
    ensures IsDie(TrimZeros(Scale(ws, Sum(ws))))
    ensures |TrimZeros(Scale(ws, Sum(ws)))| <= |ws|
    ensures forall i :: 0 <= i < |ws| ==> At(TrimZeros(Scale(ws, Sum(ws))), i) == ws[i] / Sum(ws)
    ensures ws[|ws| - 1] > 0.0 ==> |TrimZeros(Scale(ws, Sum(ws)))| == |ws|
  {
    var t := Sum(ws);
    SumNonNegative(ws, 0, |ws|);
    var s := Scale(ws, t);
    ScaleSum(ws, t);
    assert Sum(s) == 1.0;
    ScaledNonNegative(ws, t);
    TrimSum(s);
    var r := TrimZeros(s);
    if |r| == 0 {
      SigmaZero(Ext(s), 0, |s|);
      assert false;
    }
    forall i | 0 <= i < |ws| ensures At(r, i) == ws[i] / t {
      if i >= |r| {
        assert !(s[i] > 0.0) && s[i] >= 0.0;
      }
    }
  }

  /** The list branch of `Die.__init__`, with the trailing-zero trimming as
      intended (the loop as written is `Dice.NormalizeAsWritten`). */
  function Normalize(ws: seq<real>): (r: Result<seq<real>>)
    ensures r.Err? <==> |ws| > 0 && (Sum(ws) == 0.0 || !NonNegative(ws))
    ensures r.Err? ==> r.error == InvalidProbabilities
    ensures |ws| == 0 ==> r == Ok([1.0])
    ensures r.Ok? ==> IsDie(r.value)
    ensures r.Ok? && |ws| > 0 ==>
      |r.value| <= |ws| && forall i :: 0 <= i < |ws| ==> At(r.value, i) == ws[i] / Sum(ws)
    ensures r.Ok? && |ws| > 0 && ws[|ws| - 1] > 0.0 ==> |r.value| == |ws|
  {
    if |ws| == 0 then
      assert Sum([1.0]) == Sigma(Ext([1.0]), 0, 0) + Ext([1.0])(0) == 1.0;
      Ok([1.0])
    else if Sum(ws) == 0.0 || !NonNegative(ws) then
      Err(InvalidProbabilities)
    else
      ScaledTrimmed(ws);
      Ok(TrimZeros(Scale(ws, Sum(ws))))
  }

  // ---------------------------------------------------------------------------
  // Convolution: `__add__`

  /** i |-> a[i] * b[k - i] */
  function Term(a: seq<real>, b: seq<real>, k: int): int -> real
  {
    i => At(a, i) * At(b, k - i)
  }

  /** Weight k of a + b: the sum over i + j == k of a[i] * b[j]. */
  function ConvAt(a: seq<real>, b: seq<real>, k: int): real
  {
    Sigma(Term(a, b, k), 0, k + 1)
  }

  function Convolve(a: seq<real>, b: seq<real>): (r: seq<real>)
    requires |a| > 0 && |b| > 0
    ensures MaxSide(r) == MaxSide(a) + MaxSide(b)
  {
    seq(|a| + |b| - 1, k => ConvAt(a, b, k))
  }

  lemma ConvAtBeyond(a: seq<real>, b: seq<real>, k: int)
    requires k >= |a| + |b| - 1
    ensures ConvAt(a, b, k) == 0.0
  {
    forall i | 0 <= i < k + 1 ensures Term(a, b, k)(i) == 0.0 {
      assert i >= |a| || k - i >= |b|;
    }
    SigmaZero(Term(a, b, k), 0, k + 1);
  }

  /** The zero-extended weights of a + b are the convolution sums everywhere. */
  lemma AtConvolve(a: seq<real>, b: seq<real>, k: int)
    requires |a| > 0 && |b| > 0
    ensures At(Convolve(a, b), k) == ConvAt(a, b, k)
  {
    if k >= |a| + |b| - 1 {
      ConvAtBeyond(a, b, k);
    }
  }

  lemma ConvAtCommutes(a: seq<real>, b: seq<real>, k: nat)
    ensures ConvAt(a, b, k) == ConvAt(b, a, k)
  {
    forall i | 0 <= i < k + 1 ensures Term(a, b, k)(i) == Term(b, a, k)(k + 1 - 1 - i) {
    }
    SigmaReflect(Term(b, a, k), Term(a, b, k), k + 1);
  }

  /** a + b == b + a */
  lemma ConvolveCommutes(a: seq<real>, b: seq<real>)
    requires |a| > 0 && |b| > 0
    ensures Convolve(a, b) == Convolve(b, a)
  {
    var r, s := Convolve(a, b), Convolve(b, a);
    forall k | 0 <= k < |r| ensures r[k] == s[k] {
      ConvAtCommutes(a, b, k);
    }
  }

  /** (i, m) |-> a[i] * b[m - i], the terms of all convolution sums at once. */
  ghost predicate IsProductTable(g: (int, int) -> real, a: seq<real>, b: seq<real>)
  {
    forall i, m :: g(i, m) == At(a, i) * At(b, m - i)
  }

  function ProductTable(a: seq<real>, b: seq<real>): (int, int) -> real
  {
    (i, m) => At(a, i) * At(b, m - i)
  }

  lemma ProductTableIs(a: seq<real>, b: seq<real>)
    ensures IsProductTable(ProductTable(a, b), a, b)
  {
  }

  lemma RowIsTerm(a: seq<real>, b: seq<real>, g: (int, int) -> real, m: int)
    requires IsProductTable(g, a, b)
    ensures forall i :: Term(a, b, m)(i) == Row(g, m)(i)
  {
    forall i ensures Term(a, b, m)(i) == Row(g, m)(i) {
      assert Row(g, m)(i) == g(i, m);
      assert Term(a, b, m)(i) == At(a, i) * At(b, m - i);
    }
  }

  lemma ConvolveSumAsTriangle(a: seq<real>, b: seq<real>, g: (int, int) -> real)
    requires |a| > 0 && |b| > 0 && IsProductTable(g, a, b)
    ensures Sum(Convolve(a, b)) == Sigma(Tri(g), 0, |a| + |b| - 1)
  {
    var r := Convolve(a, b);
    forall m | 0 <= m < |r| ensures Ext(r)(m) == Tri(g)(m) {
      RowIsTerm(a, b, g, m);
      SigmaExt(Term(a, b, m), Row(g, m), 0, m + 1);
      assert Tri(g)(m) == Sigma(Row(g, m), 0, m + 1);
    }
    SigmaExt(Ext(r), Tri(g), 0, |r|);
  }

  /** m |-> b[m - i] */
  function Shifted(b: seq<real>, i: int): int -> real
  {
    m => At(b, m - i)
  }

  lemma ShiftedSum(b: seq<real>, i: int, n: int)
    requires i <= n
    ensures Sigma(Shifted(b, i), i, n) == Sigma(Ext(b), 0, n - i)
  {
    forall j | 0 <= j < n - i ensures Ext(b)(j) == Shifted(b, i)(j + i) {
    }
    SigmaShift(Shifted(b, i), Ext(b), 0, n - i, i);
  }

  lemma ProductColumn(a: seq<real>, b: seq<real>, g: (int, int) -> real, i: int, n: int)
    requires IsProductTable(g, a, b)
    ensures Sigma(Col(g, i), i, n) == At(a, i) * Sigma(Shifted(b, i), i, n)
  {
    forall m | i <= m < n ensures Col(g, i)(m) == At(a, i) * Shifted(b, i)(m) {
      assert Col(g, i)(m) == g(i, m);
    }
    SigmaScale(At(a, i), Shifted(b, i), Col(g, i), i, n);
  }

  lemma ConvolveSumColumn(a: seq<real>, b: seq<real>, g: (int, int) -> real, i: int)
    requires |a| > 0 && |b| > 0 && IsProductTable(g, a, b)
    requires 0 <= i < |a| + |b| - 1
    ensures Rect(g, |a| + |b| - 1)(i) == Sum(b) * Ext(a)(i)
  {
    var n := |a| + |b| - 1;
    ProductColumn(a, b, g, i, n);
    ShiftedSum(b, i, n);
    if i < |a| {
      SumBeyond(b, n - i);
    }
    assert Rect(g, n)(i) == Sigma(Col(g, i), i, n);
  }

  lemma ConvolveSumRect(a: seq<real>, b: seq<real>)
    requires |a| > 0 && |b| > 0
    ensures Sum(Convolve(a, b)) == Sigma(Rect(ProductTable(a, b), |a| + |b| - 1), 0, |a| + |b| - 1)
  {
    ProductTableIs(a, b);
    ConvolveSumAsTriangle(a, b, ProductTable(a, b));
    SigmaTriangle(ProductTable(a, b), |a| + |b| - 1);
  }

  lemma ConvolveSumFactor(a: seq<real>, b: seq<real>)
    requires |a| > 0 && |b| > 0
    ensures Sigma(Rect(ProductTable(a, b), |a| + |b| - 1), 0, |a| + |b| - 1) == Sum(b) * Sum(a)
  {
    var n, g := |a| + |b| - 1, ProductTable(a, b);
    ColumnsScaled(a, b);
    SigmaScale(Sum(b), Ext(a), Rect(g, n), 0, n);
    SumBeyond(a, n);
  }

  lemma ColumnsScaled(a: seq<real>, b: seq<real>)
    requires |a| > 0 && |b| > 0
    ensures forall i :: 0 <= i < |a| + |b| - 1 ==>
      Rect(ProductTable(a, b), |a| + |b| - 1)(i) == Sum(b) * Ext(a)(i)
  {
    var n, g := |a| + |b| - 1, ProductTable(a, b);
    ProductTableIs(a, b);
    forall i | 0 <= i < n ensures Rect(g, n)(i) == Sum(b) * Ext(a)(i) {
      ConvolveSumColumn(a, b, g, i);
    }
  }

  /** The total weight of a + b is the product of the totals. */
  lemma ConvolveSum(a: seq<real>, b: seq<real>)
    requires |a| > 0 && |b| > 0
    ensures Sum(Convolve(a, b)) == Sum(a) * Sum(b)
  {
    ConvolveSumRect(a, b);
    ConvolveSumFactor(a, b);
  }

  /** (i, m) |-> a[i] * b[m - i] * c[n - m] */
  ghost predicate IsTripleTable(g: (int, int) -> real, a: seq<real>, b: seq<real>, c: seq<real>, n: int)
  {
    forall i, m :: g(i, m) == At(a, i) * At(b, m - i) * At(c, n - m)
  }

  function TripleTable(a: seq<real>, b: seq<real>, c: seq<real>, n: int): (int, int) -> real
  {
    (i, m) => At(a, i) * At(b, m - i) * At(c, n - m)
  }

  lemma TripleTableIs(a: seq<real>, b: seq<real>, c: seq<real>, n: int)
    ensures IsTripleTable(TripleTable(a, b, c, n), a, b, c, n)
  {
  }

  lemma AssocLeftRow(a: seq<real>, b: seq<real>, c: seq<real>, n: int, g: (int, int) -> real, m: int)
    requires IsTripleTable(g, a, b, c, n)
    ensures At(c, n - m) * ConvAt(a, b, m) == Tri(g)(m)
  {
    forall i | 0 <= i < m + 1 ensures Row(g, m)(i) == At(c, n - m) * Term(a, b, m)(i) {
      assert Row(g, m)(i) == g(i, m);
      var x, y, z := At(a, i), At(b, m - i), At(c, n - m);
      assert x * y * z == z * (x * y);
    }
    SigmaScale(At(c, n - m), Term(a, b, m), Row(g, m), 0, m + 1);
  }

  lemma AssocLeftTerm(a: seq<real>, b: seq<real>, c: seq<real>, n: int, g: (int, int) -> real, m: int)
    requires |a| > 0 && |b| > 0 && IsTripleTable(g, a, b, c, n)
    ensures Term(Convolve(a, b), c, n)(m) == Tri(g)(m)
  {
    AtConvolve(a, b, m);
    AssocLeftRow(a, b, c, n, g, m);
  }

  /** One weight of (a + b) + c, as a double sum over i <= m <= n. */
  lemma AssocLeft(a: seq<real>, b: seq<real>, c: seq<real>, n: nat, g: (int, int) -> real)
    requires |a| > 0 && |b| > 0 && IsTripleTable(g, a, b, c, n)
    ensures ConvAt(Convolve(a, b), c, n) == Sigma(Rect(g, n + 1), 0, n + 1)
  {
    var ab := Convolve(a, b);
    forall m | 0 <= m < n + 1 ensures Term(ab, c, n)(m) == Tri(g)(m) {
      AssocLeftTerm(a, b, c, n, g, m);
    }
    SigmaExt(Term(ab, c, n), Tri(g), 0, n + 1);
    SigmaTriangle(g, n + 1);
  }

  /** m |-> b[m - i] * c[n - m] */
  function Inner(b: seq<real>, c: seq<real>, n: int, i: int): int -> real
  {
    m => At(b, m - i) * At(c, n - m)
  }

  /** Kept apart from `TripleColumn`: the solver's nonlinear reasoning is
      cheaper on three plain reals than under the quantified table. */
  lemma MulAssoc(x: real, y: real, z: real)
    ensures x * y * z == x * (y * z)
  {
  }

  lemma TripleColumn(a: seq<real>, b: seq<real>, c: seq<real>, n: int, g: (int, int) -> real, i: int)
    requires IsTripleTable(g, a, b, c, n)
    ensures Sigma(Col(g, i), i, n + 1) == At(a, i) * Sigma(Inner(b, c, n, i), i, n + 1)
  {
    forall m | i <= m < n + 1 ensures Col(g, i)(m) == At(a, i) * Inner(b, c, n, i)(m) {
      MulAssoc(At(a, i), At(b, m - i), At(c, n - m));
      assert Col(g, i)(m) == g(i, m);
    }
    SigmaScale(At(a, i), Inner(b, c, n, i), Col(g, i), i, n + 1);
  }

  lemma InnerShift(b: seq<real>, c: seq<real>, n: int, i: int)
    requires i <= n
    ensures Sigma(Inner(b, c, n, i), i, n + 1) == ConvAt(b, c, n - i)
  {
    var k := n - i;
    forall j | 0 <= j < k + 1 ensures Term(b, c, k)(j) == Inner(b, c, n, i)(j + i) {
    }
    SigmaShift(Inner(b, c, n, i), Term(b, c, k), 0, k + 1, i);
  }

  lemma AssocRightColumn(a: seq<real>, b: seq<real>, c: seq<real>, n: int, g: (int, int) -> real, i: int)
    requires IsTripleTable(g, a, b, c, n)
    requires i <= n
    ensures At(a, i) * ConvAt(b, c, n - i) == Rect(g, n + 1)(i)
  {
    TripleColumn(a, b, c, n, g, i);
    InnerShift(b, c, n, i);
    assert Rect(g, n + 1)(i) == Sigma(Col(g, i), i, n + 1);
  }

  lemma AssocRightTerm(a: seq<real>, b: seq<real>, c: seq<real>, n: int, g: (int, int) -> real, i: int)
    requires |b| > 0 && |c| > 0 && IsTripleTable(g, a, b, c, n)
    requires i <= n
    ensures Term(a, Convolve(b, c), n)(i) == Rect(g, n + 1)(i)
  {
    AtConvolve(b, c, n - i);
    AssocRightColumn(a, b, c, n, g, i);
  }

  /** One weight of a + (b + c), as the same double sum. */
  lemma AssocRight(a: seq<real>, b: seq<real>, c: seq<real>, n: nat, g: (int, int) -> real)
    requires |b| > 0 && |c| > 0 && IsTripleTable(g, a, b, c, n)
    ensures ConvAt(a, Convolve(b, c), n) == Sigma(Rect(g, n + 1), 0, n + 1)
  {
    var bc := Convolve(b, c);
    forall i | 0 <= i < n + 1 ensures Term(a, bc, n)(i) == Rect(g, n + 1)(i) {
      AssocRightTerm(a, b, c, n, g, i);
    }
    SigmaExt(Term(a, bc, n), Rect(g, n + 1), 0, n + 1);
  }

  lemma AssocAt(a: seq<real>, b: seq<real>, c: seq<real>, n: nat)
    requires |a| > 0 && |b| > 0 && |c| > 0
    ensures ConvAt(Convolve(a, b), c, n) == ConvAt(a, Convolve(b, c), n)
  {
    TripleTableIs(a, b, c, n);
    AssocLeft(a, b, c, n, TripleTable(a, b, c, n));
    AssocRight(a, b, c, n, TripleTable(a, b, c, n));
  }

  /** (a + b) + c == a + (b + c) */
  lemma ConvolveAssociates(a: seq<real>, b: seq<real>, c: seq<real>)
    requires |a| > 0 && |b| > 0 && |c| > 0
    ensures Convolve(Convolve(a, b), c) == Convolve(a, Convolve(b, c))
  {
    var l, r := Convolve(Convolve(a, b), c), Convolve(a, Convolve(b, c));
    forall n | 0 <= n < |l| ensures l[n] == r[n] {
      AssocAt(a, b, c, n);
    }
  }

  lemma ConvAtIdentity(d: seq<real>, k: nat)
    ensures ConvAt([1.0], d, k) == At(d, k)
  {
    SigmaSingle(Term([1.0], d, k), 0, k + 1, 0);
  }

  /** const(0) is the neutral element of +. */
  lemma ConvolveIdentity(d: seq<real>)
    requires |d| > 0
    ensures Convolve([1.0], d) == d && Convolve(d, [1.0]) == d
  {
    var r := Convolve([1.0], d);
    forall k | 0 <= k < |r| ensures r[k] == d[k] {
      ConvAtIdentity(d, k);
    }
    ConvolveCommutes(d, [1.0]);
  }

  lemma ConvAtNonNegative(a: seq<real>, b: seq<real>, k: int)
    requires NonNegative(a) && NonNegative(b)
    ensures ConvAt(a, b, k) >= 0.0
  {
    forall i | 0 <= i < k + 1 ensures Term(a, b, k)(i) >= 0.0 {
    }
    SigmaNonNeg(Term(a, b, k), 0, k + 1);
  }

  lemma ConvAtTop(a: seq<real>, b: seq<real>)
    requires |a| > 0 && |b| > 0
    ensures ConvAt(a, b, |a| + |b| - 2) == a[|a| - 1] * b[|b| - 1]
  {
    var k := |a| + |b| - 2;
    forall i | 0 <= i < k + 1 && i != |a| - 1 ensures Term(a, b, k)(i) == 0.0 {
      if i >= |a| {
        assert At(a, i) == 0.0;
      } else {
        assert At(b, k - i) == 0.0;
      }
    }
    SigmaSingle(Term(a, b, k), 0, k + 1, |a| - 1);
    assert Term(a, b, k)(|a| - 1) == At(a, |a| - 1) * At(b, |b| - 1);
  }

  /** The sum of two dice is a die. */
  lemma ConvolveIsDie(a: seq<real>, b: seq<real>)
    requires IsDie(a) && IsDie(b)
    ensures IsDie(Convolve(a, b))
  {
    var r := Convolve(a, b);
    forall k | 0 <= k < |r| ensures r[k] >= 0.0 {
      ConvAtNonNegative(a, b, k);
    }
    ConvAtTop(a, b);
    ConvolveSum(a, b);
  }

  /** `Die(sides)` at the end of `__add__` leaves the convolution of two dice
      unchanged: its total is already one and its last weight positive. */
  lemma NormalizeConvolution(a: seq<real>, b: seq<real>)
    requires IsDie(a) && IsDie(b)
    ensures Normalize(Convolve(a, b)) == Ok(Convolve(a, b))
  {
    ConvolveIsDie(a, b);
    NormalizeDie(Convolve(a, b));
  }

  /** The list constructor leaves a die as it is. */
  lemma NormalizeDie(s: seq<real>)
    requires IsDie(s)
    ensures Normalize(s) == Ok(s)
  {
    var r := Normalize(s);
    assert |r.value| == |s|;
    forall i | 0 <= i < |s| ensures r.value[i] == s[i] {
      assert At(r.value, i) == s[i] / 1.0;
    }
    assert r.value == s;
  }

  // ---------------------------------------------------------------------------
  // Sums of lists of dice and `duplicate`

  predicate AllDice(ds: seq<seq<real>>)
  {
    forall i :: 0 <= i < |ds| ==> IsDie(ds[i])
  }

  function TotalMaxSide(ds: seq<seq<real>>): int
  {
    if |ds| == 0 then 0 else TotalMaxSide(ds[..|ds| - 1]) + MaxSide(ds[|ds| - 1])
  }

  /** `Die(list_of_dice)`: `reduce(operator.add, dice, Die.const(0))`. */
  function SumDice(ds: seq<seq<real>>): (r: seq<real>)
    requires AllDice(ds)
    ensures IsDie(r)
    ensures MaxSide(r) == TotalMaxSide(ds)
  {
    if |ds| == 0 then
      ConstIsDie(0);
      [1.0]
    else
      var init := SumDice(ds[..|ds| - 1]);
      ConvolveIsDie(init, ds[|ds| - 1]);
      Convolve(init, ds[|ds| - 1])
  }

  /** `d.duplicate(n)`: n copies of d added up, the constant 0 for n <= 0. */
  function Dup(d: seq<real>, n: int): (r: seq<real>)
    requires |d| > 0
    ensures |r| > 0
    decreases n
  {
    if n <= 0 then [1.0] else Convolve(Dup(d, n - 1), d)
  }

  /** n copies of a die add up to a die. */
  lemma {:induction false} DupIsDie(d: seq<real>, n: int)
    requires IsDie(d)
    ensures IsDie(Dup(d, n))
    decreases n
  {
    if n <= 0 {
      ConstIsDie(0);
    } else {
      DupIsDie(d, n - 1);
      ConvolveIsDie(Dup(d, n - 1), d);
    }
  }

  /** `duplicate(n)` is `Die([d] * n)`, the sum of the list of n copies. */
  lemma {:induction false} DupIsSumOfCopies(d: seq<real>, n: nat)
    requires IsDie(d)
    ensures AllDice(seq(n, _ => d))
    ensures Dup(d, n) == SumDice(seq(n, _ => d))
  {
    var ds := seq(n, _ => d);
    if n > 0 {
      DupIsSumOfCopies(d, n - 1);
      DupIsDie(d, n - 1);
      assert ds[..n - 1] == seq(n - 1, _ => d);
    }
  }

  /** `duplicate` adds the maximal sides: n copies reach n * max_side. */
  lemma {:induction false} DupMaxSide(d: seq<real>, n: nat)
    requires |d| > 0
    ensures MaxSide(Dup(d, n)) == n * MaxSide(d)
  {
    if n > 0 {
      DupMaxSide(d, n - 1);
    }
  }

  /** No copies is the constant 0 and one copy is the die itself. */
  lemma DupBase(d: seq<real>, n: int)
    requires |d| > 0
    ensures n <= 0 ==> Dup(d, n) == [1.0]
    ensures n == 1 ==> Dup(d, n) == d
  {
    if n == 1 {
      ConvolveIdentity(d);
    }
  }

  /** `duplicate(k) == d + duplicate(k - 1)` */
  lemma DupPeel(d: seq<real>, n: nat)
    requires |d| > 0 && n > 0
    ensures Dup(d, n) == Convolve(d, Dup(d, n - 1))
  {
    ConvolveCommutes(Dup(d, n - 1), d);
  }

  /** `duplicate(m + n) == duplicate(m) + duplicate(n)` */
  lemma {:induction false} DupAdd(d: seq<real>, m: nat, n: nat)
    requires |d| > 0
    ensures Dup(d, m + n) == Convolve(Dup(d, m), Dup(d, n))
  {
    if n == 0 {
      ConvolveIdentity(Dup(d, m));
    } else {
      DupAdd(d, m, n - 1);
      ConvolveAssociates(Dup(d, m), Dup(d, n - 1), d);
    }
  }

  /** (p + q) + (a + b) == (p + a) + (q + b) */
  lemma ConvolveInterchange(p: seq<real>, q: seq<real>, a: seq<real>, b: seq<real>)
    requires |p| > 0 && |q| > 0 && |a| > 0 && |b| > 0
    ensures Convolve(Convolve(p, q), Convolve(a, b)) == Convolve(Convolve(p, a), Convolve(q, b))
  {
    ConvolveAssociates(Convolve(p, q), a, b);
    ConvolveAssociates(p, q, a);
    ConvolveCommutes(q, a);
    ConvolveAssociates(p, a, q);
    ConvolveAssociates(Convolve(p, a), q, b);
  }

  /** `(a + b).duplicate(n) == a.duplicate(n) + b.duplicate(n)` */
  lemma {:induction false} DupDistributes(a: seq<real>, b: seq<real>, n: nat)
    requires |a| > 0 && |b| > 0
    ensures Dup(Convolve(a, b), n) == Convolve(Dup(a, n), Dup(b, n))
  {
    if n == 0 {
      ConvolveIdentity([1.0]);
    } else {
      DupDistributes(a, b, n - 1);
      ConvolveInterchange(Dup(a, n - 1), Dup(b, n - 1), a, b);
    }
  }

  // ---------------------------------------------------------------------------
  // The survival table `_reach` and the head-to-head probabilities

  /** `_reach`: reach[k] starts at 1 and drops by w[k] at each step. */
  function Reach(w: seq<real>): (r: seq<real>)
    ensures |r| == |w|
  {
    seq(|w|, k => 1.0 - Sigma(Ext(w), 0, k))
  }

  /** The recurrence that `_compute_reach` runs. */
  lemma ReachSteps(w: seq<real>)
    requires |w| > 0
    ensures Reach(w)[0] == 1.0
    ensures forall k :: 0 <= k < |w| - 1 ==> Reach(w)[k + 1] == Reach(w)[k] - w[k]
  {
  }

  /** For a die, reach[k] is the probability of rolling at least k, and the
      table falls from 1 to the weight of the highest outcome. */
  lemma ReachIsSurvival(w: seq<real>)
    requires IsDie(w)
    ensures forall k :: 0 <= k < |w| ==> Reach(w)[k] == Sigma(Ext(w), k, |w|)
    ensures forall i, j :: 0 <= i <= j < |w| ==> Reach(w)[i] >= Reach(w)[j]
    ensures forall k :: 0 <= k < |w| ==> 0.0 < Reach(w)[k] <= 1.0
    ensures Reach(w)[|w| - 1] == w[|w| - 1]
  {
    var r := Reach(w);
    forall k | 0 <= k < |w| ensures r[k] == Sigma(Ext(w), k, |w|) {
      SigmaSplit(Ext(w), 0, k, |w|);
    }
    forall i, j | 0 <= i <= j < |w| ensures r[i] >= r[j] {
      SigmaSplit(Ext(w), i, j, |w|);
      SumNonNegative(w, i, j);
    }
    forall k | 0 <= k < |w| ensures 0.0 < r[k] <= 1.0 {
      SigmaDominates(Ext(w), k, |w|, |w| - 1);
      SumNonNegative(w, 0, k);
    }
    SigmaLow(Ext(w), |w| - 1, |w|);
  }

  /** k |-> xs[k] * ys[k] */
  function Products(xs: seq<real>, ys: seq<real>): int -> real
  {
    k => At(xs, k) * At(ys, k)
  }

  /** `sum([ x*y for (x,y) in zip(xs, ys) ])`: zip stops at the shorter list. */
  function ZipDot(xs: seq<real>, ys: seq<real>): real
  {
    Sigma(Products(xs, ys), 0, Min(|xs|, |ys|))
  }

  /** `a.probability_vs(b)`: b's weights zipped with a's reach from 1 on. */
  function Vs(a: seq<real>, b: seq<real>): real
    requires |a| > 0
  {
    ZipDot(b, Reach(a)[1..])
  }

  /** `a.probability_eq(b)`: the two weight lists zipped and multiplied. */
  function Eq(a: seq<real>, b: seq<real>): real
  {
    ZipDot(a, b)
  }

  function VsTerm(a: seq<real>, b: seq<real>): int -> real
    requires |a| > 0
  {
    Products(b, Reach(a)[1..])
  }

  function EqTerm(a: seq<real>, b: seq<real>): int -> real
  {
    Products(a, b)
  }

  lemma EqSymmetric(a: seq<real>, b: seq<real>)
    ensures Eq(a, b) == Eq(b, a)
  {
    SigmaExt(EqTerm(a, b), EqTerm(b, a), 0, Min(|a|, |b|));
  }

  /** The tail sums of a die, zero-extended up to n. */
  function Tail(w: seq<real>, n: int): int -> real
  {
    k => Sigma(Ext(w), k, n)
  }

  lemma ReachIsTail(w: seq<real>, n: int, k: int)
    requires IsDie(w) && n >= |w| && 0 <= k
    ensures At(Reach(w), k) == Tail(w, n)(k)
  {
    if k < |w| {
      SigmaSplit(Ext(w), 0, k, |w|);
      SigmaExtendZero(Ext(w), k, |w|, n);
    } else {
      SigmaZero(Ext(w), k, n);
    }
  }

  lemma VsExtended(a: seq<real>, b: seq<real>, n: int)
    requires |a| > 0 && n >= |a| + |b|
    ensures Vs(a, b) == Sigma(VsTerm(a, b), 0, n)
  {
    forall k | Min(|b|, |a| - 1) <= k < n ensures VsTerm(a, b)(k) == 0.0 {
      if k < |b| {
        assert At(Reach(a)[1..], k) == 0.0;
      }
    }
    SigmaExtendZero(VsTerm(a, b), 0, Min(|b|, |a| - 1), n);
  }

  lemma VsTermTail(a: seq<real>, b: seq<real>, n: int, k: int)
    requires IsDie(a) && n >= |a| && 0 <= k
    ensures VsTerm(a, b)(k) == At(b, k) * Tail(a, n)(k + 1)
  {
    assert At(Reach(a)[1..], k) == At(Reach(a), k + 1);
    ReachIsTail(a, n, k + 1);
  }

  /** k |-> the chance that a wins, loses or ties with b's roll at k */
  function DuelTerm(a: seq<real>, b: seq<real>): int -> real
    requires |a| > 0 && |b| > 0
  {
    k => VsTerm(a, b)(k) + VsTerm(b, a)(k) + EqTerm(a, b)(k)
  }

  function WinOrLoseTerm(a: seq<real>, b: seq<real>): int -> real
    requires |a| > 0 && |b| > 0
  {
    k => VsTerm(a, b)(k) + VsTerm(b, a)(k)
  }

  /** k |-> the chance that both dice roll at least k */
  function BothReach(a: seq<real>, b: seq<real>, n: int): int -> real
  {
    k => Tail(a, n)(k) * Tail(b, n)(k)
  }

  lemma TailStep(w: seq<real>, n: int, k: int)
    requires k < n
    ensures Tail(w, n)(k) == At(w, k) + Tail(w, n)(k + 1)
  {
    SigmaLow(Ext(w), k, n);
  }

  lemma DuelStep(a: seq<real>, b: seq<real>, n: int, k: int)
    requires IsDie(a) && IsDie(b) && n >= |a| + |b| && 0 <= k < n
    ensures DuelTerm(a, b)(k) == BothReach(a, b, n)(k) - BothReach(a, b, n)(k + 1)
  {
    DuelTermAt(a, b, n, k);
    TailStep(a, n, k);
    TailStep(b, n, k);
    var x, y := At(a, k), At(b, k);
    var p, q := Tail(a, n)(k + 1), Tail(b, n)(k + 1);
    assert y * p + x * q + x * y == (x + p) * (y + q) - p * q;
  }

  /** The duel term at k, in terms of the two dice's tails beyond k. */
  lemma DuelTermAt(a: seq<real>, b: seq<real>, n: int, k: int)
    requires IsDie(a) && IsDie(b) && n >= |a| + |b| && 0 <= k
    ensures DuelTerm(a, b)(k) == At(b, k) * Tail(a, n)(k + 1) + At(a, k) * Tail(b, n)(k + 1) + At(a, k) * At(b, k)
  {
    VsTermTail(a, b, n, k);
    VsTermTail(b, a, n, k);
  }

  lemma DuelSum(a: seq<real>, b: seq<real>, n: int)
    requires |a| > 0 && |b| > 0 && n >= |a| + |b|
    ensures Vs(a, b) + Vs(b, a) + Eq(a, b) == Sigma(DuelTerm(a, b), 0, n)
  {
    VsExtended(a, b, n);
    VsExtended(b, a, n);
    SigmaExtendZero(EqTerm(a, b), 0, Min(|a|, |b|), n);
    SigmaAdd(VsTerm(a, b), VsTerm(b, a), WinOrLoseTerm(a, b), 0, n);
    SigmaAdd(WinOrLoseTerm(a, b), EqTerm(a, b), DuelTerm(a, b), 0, n);
  }

  lemma DuelTelescopes(a: seq<real>, b: seq<real>, n: nat)
    requires IsDie(a) && IsDie(b) && n >= |a| + |b|
    ensures Sigma(DuelTerm(a, b), 0, n) == Sum(a) * Sum(b)
  {
    forall k | 0 <= k < n ensures DuelTerm(a, b)(k) == BothReach(a, b, n)(k) - BothReach(a, b, n)(k + 1) {
      DuelStep(a, b, n, k);
    }
    Telescope(BothReach(a, b, n), DuelTerm(a, b), n);
    SumBeyond(a, n);
    SumBeyond(b, n);
    assert Tail(a, n)(0) == Sum(a) && Tail(b, n)(0) == Sum(b);
    assert Tail(a, n)(n) == 0.0 && Tail(b, n)(n) == 0.0;
  }

  /** Winning, losing and tying exhaust the possibilities:
      `a.vs(b) + b.vs(a) + a.eq(b) == 1`. */
  lemma WinLoseTie(a: seq<real>, b: seq<real>)
    requires IsDie(a) && IsDie(b)
    ensures Vs(a, b) + Vs(b, a) + Eq(a, b) == 1.0
  {
    DuelSum(a, b, |a| + |b|);
    DuelTelescopes(a, b, |a| + |b|);
  }
}
