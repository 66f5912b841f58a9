/** The `Die` class of the dice engine: its constructor with the
    trailing-zero loop as written, `const`, `__add__` with its accumulation
    loop, `duplicate`, the cached survival table, the head-to-head
    probabilities and `roll` with a caller-supplied random number. */
module Dice {
  import opened Sums
  import opened Distribution
  import opened Wrappers

  // ---------------------------------------------------------------------------
  // The trailing-zero loop of the list constructor

  /** How many trailing weights the intended trimming removes. */
  function Trailing(w: seq<real>): nat
  {
    |w| - |TrimZeros(w)|
  }

  lemma TrailingCases(w: seq<real>)
    ensures Trailing(w) == 0 <==> |w| == 0 || w[|w| - 1] > 0.0
    ensures Trailing(w) >= 2 <==> |w| >= 2 && !(w[|w| - 1] > 0.0) && !(w[|w| - 2] > 0.0)
    ensures Trailing(w) == 1 ==> TrimZeros(w) == w[..|w| - 1]
  {
    var r := TrimZeros(w);
    if |r| == |w| && |w| > 0 {
      assert r[|r| - 1] == w[|w| - 1];
    }
    if |r| == |w| - 1 && |w| >= 2 {
      assert r[|r| - 1] == w[|w| - 2];
    }
  }

  /** `for (i,s) in enumerate(reversed(self._sides),1): ... del self._sides[-i]`
      as written. The reverse iterator reads index `idx` while it lies inside
      the shrinking list; `del sides[-i]` fails once i exceeds the length.
      It agrees with the intended trimming when at most one weight is
      trailing, and raises IndexError otherwise. */
  method TrimAsWritten(w: seq<real>) returns (r: Result<seq<real>>)
    ensures Trailing(w) <= 1 ==> r == Ok(TrimZeros(w))
    ensures Trailing(w) >= 2 ==> r == Err(TrimIndexError)
  {
    TrailingCases(w);
    var sides := w;
    var idx := |sides| - 1;
    var i := 1;
    while 0 <= idx < |sides|
      invariant idx == |sides| - 1
      invariant 1 <= i && |sides| + i == |w| + 1
      invariant i == 1 ==> sides == w
      invariant i >= 2 ==> |w| >= 1 && !(w[|w| - 1] > 0.0)
      invariant i == 2 ==> sides == w[..|w| - 1]
      invariant i >= 2 && |sides| > 0 ==> sides[|sides| - 1] == w[|w| - 2]
      invariant i >= 3 ==> |w| >= 2 && !(w[|w| - 2] > 0.0) && |sides| >= 1
      decreases idx + 1
    {
      var s := sides[idx];
      idx := idx - 1;
      if s > 0.0 {
        break;
      }
      if i > |sides| {
        return Err(TrimIndexError);
      }
      sides := sides[..|sides| - i] + sides[|sides| - i + 1..];
      i := i + 1;
    }
    r := Ok(sides);
  }

  lemma TrailingScaled(ws: seq<real>)
    requires |ws| > 0 && NonNegative(ws) && Sum(ws) != 0.0
    ensures Sum(ws) > 0.0
    ensures Trailing(Scale(ws, Sum(ws))) <= 1 <==> Trailing(ws) <= 1
  {
    ScaledTrimmed(ws);
    ScaledNonNegative(ws, Sum(ws));
    TrailingCases(ws);
    TrailingCases(Scale(ws, Sum(ws)));
  }

  /** The list branch of `Die.__init__` as written: validate, divide by the
      total, then run the trailing-zero loop. */
  method NormalizeAsWritten(ws: seq<real>) returns (r: Result<seq<real>>)
    ensures Normalize(ws).Err? ==> r == Normalize(ws)
    ensures Trailing(ws) <= 1 ==> r == Normalize(ws)
    ensures Normalize(ws).Ok? && Trailing(ws) >= 2 ==> r == Err(TrimIndexError)
  {
    if |ws| == 0 {
      return Ok([1.0]);
    }
    var total := Sum(ws);
    if total == 0.0 || !NonNegative(ws) {
      return Err(InvalidProbabilities);
    }
    TrailingScaled(ws);
    r := TrimAsWritten(Scale(ws, total));
  }

  /** `Die([1.0, 0.0, 0.0])`: two trailing zeros, so the loop as written
      raises IndexError where the intended die is the constant 0. */
  lemma TwoTrailingZeros()
    ensures Trailing([1.0, 0.0, 0.0]) == 2
    ensures Normalize([1.0, 0.0, 0.0]) == Ok([1.0])
  {
    var w := [1.0, 0.0, 0.0];
    assert Sum(w) == 1.0 by {
      SigmaSingle(Ext(w), 0, 3, 0);
    }
    assert w[..2] == [1.0, 0.0] && w[..2][..1] == [1.0];
    assert TrimZeros(w) == [1.0];
    NormalizeUnit(w);
  }

  /** Weights that already sum to one are only trimmed. */
  lemma NormalizeUnit(w: seq<real>)
    requires |w| > 0 && NonNegative(w) && Sum(w) == 1.0
    ensures Normalize(w) == Ok(TrimZeros(w))
  {
    assert Scale(w, 1.0) == w;
  }

  // ---------------------------------------------------------------------------
  // The accumulation loop of `__add__`

  /** What `sides[k]` holds once rows 0..rows-1 of the outcome pairs and the
      first `cols` pairs of row `rows` have been added in. */
  function Partial(a: seq<real>, b: seq<real>, rows: int, cols: int, k: int): real
  {
    Sigma(Term(a, b, k), 0, rows) + (if rows <= k < rows + cols then Term(a, b, k)(rows) else 0.0)
  }

  lemma PartialStep(a: seq<real>, b: seq<real>, sv: int, ov: int)
    requires 0 <= sv < |a| && 0 <= ov < |b|
    ensures forall k ::
      Partial(a, b, sv, ov + 1, k) == Partial(a, b, sv, ov, k) + (if k == sv + ov then a[sv] * b[ov] else 0.0)
  {
    forall k ensures Partial(a, b, sv, ov + 1, k)
      == Partial(a, b, sv, ov, k) + (if k == sv + ov then a[sv] * b[ov] else 0.0)
    {
      if k == sv + ov {
        assert Term(a, b, k)(sv) == At(a, sv) * At(b, ov);
      }
    }
  }

  lemma RowDone(a: seq<real>, b: seq<real>, sv: int)
    requires 0 <= sv
    ensures forall k :: Partial(a, b, sv, |b|, k) == Partial(a, b, sv + 1, 0, k)
  {
    forall k ensures Partial(a, b, sv, |b|, k) == Partial(a, b, sv + 1, 0, k) {
      if !(sv <= k < sv + |b|) {
        assert At(b, k - sv) == 0.0;
        assert Term(a, b, k)(sv) == 0.0;
      }
    }
  }

  lemma AllRows(a: seq<real>, b: seq<real>, k: int)
    requires 0 <= k
    ensures Partial(a, b, |a|, 0, k) == ConvAt(a, b, k)
  {
    if k + 1 <= |a| {
      forall i | k + 1 <= i < |a| ensures Term(a, b, k)(i) == 0.0 {
        assert At(b, k - i) == 0.0;
      }
      SigmaExtendZero(Term(a, b, k), 0, k + 1, |a|);
    } else {
      forall i | |a| <= i < k + 1 ensures Term(a, b, k)(i) == 0.0 {
        assert At(a, i) == 0.0;
      }
      SigmaExtendZero(Term(a, b, k), 0, |a|, k + 1);
    }
  }

  /** `sides = [0.0]*(...)` and `for (v,p) in outcomes: sides[v] += p`, the
      outcome pairs running over a's sides and, inside, over b's. */
  method Accumulate(a: seq<real>, b: seq<real>) returns (r: seq<real>)
    requires |a| > 0 && |b| > 0
    ensures r == Convolve(a, b)
  {
    var sides := new real[|a| + |b| - 1](_ => 0.0);
    var sv := 0;
    while sv < |a|
      invariant 0 <= sv <= |a|
      invariant forall k :: 0 <= k < sides.Length ==> sides[k] == Partial(a, b, sv, 0, k)
    {
      var ov := 0;
      while ov < |b|
        invariant 0 <= ov <= |b|
        invariant forall k :: 0 <= k < sides.Length ==> sides[k] == Partial(a, b, sv, ov, k)
      {
        PartialStep(a, b, sv, ov);
        sides[sv + ov] := sides[sv + ov] + a[sv] * b[ov];
        ov := ov + 1;
      }
      RowDone(a, b, sv);
      sv := sv + 1;
    }
    forall k | 0 <= k < sides.Length ensures sides[k] == ConvAt(a, b, k) {
      AllRows(a, b, k);
    }
    r := sides[..];
  }

  /** The running total of the first n weights. */
  function Cumulative(w: seq<real>, n: int): real
  {
    Sigma(Ext(w), 0, n)
  }

  datatype RollResult =
    | Rolled(outcome: nat)
    | NoOutcome        // the loop runs off the end and `roll` returns None
    | InvalidRnd       // ValueError("rnd must be in [0.0, 1.0)")

  /** The argument of the constructor. */
  datatype Arg =
    | IntArg(n: int)
    | ListArg(ws: seq<real>)
    | DiceArg(dice: seq<Die>)
    | DieArg(die: Die)

  function SidesList(ds: seq<Die>): (r: seq<seq<real>>)
    ensures |r| == |ds| && forall i :: 0 <= i < |ds| ==> r[i] == ds[i].sides
  {
    seq(|ds|, i requires 0 <= i < |ds| => ds[i].sides)
  }

  lemma SumOfStep(ds: seq<Die>, i: int)
    requires 0 <= i < |ds| && AllDice(SidesList(ds))
    ensures AllDice(SidesList(ds[..i])) && AllDice(SidesList(ds[..i + 1]))
    ensures SumDice(SidesList(ds[..i + 1])) == Convolve(SumDice(SidesList(ds[..i])), ds[i].sides)
  {
    var xs := SidesList(ds[..i + 1]);
    assert xs[..i] == SidesList(ds[..i]);
  }

  class Die {
    /** `_sides`: the weight of each outcome */
    const sides: seq<real>
    /** `_reach`: the survival table once computed */
    var reach: Option<seq<real>>

    ghost predicate Valid()
      reads this
    {
      IsDie(sides) && (reach.Some? ==> reach.value == Reach(sides))
    }

    constructor Of(ws: seq<real>)
      requires IsDie(ws)
      ensures sides == ws && reach == None && Valid()
    {
      sides := ws;
      reach := None;
    }

    /** `Die(n)` for an integer n. */
    static method FromInt(n: int) returns (r: Result<Die>)
      ensures r.Err? <==> n < 0
      ensures r.Err? ==> r.error == NegativeSides
      ensures r.Ok? ==> fresh(r.value) && r.value.Valid() && r.value.reach == None
      ensures r.Ok? ==> r.value.sides == Fair(n)
    {
      if n > 0 {
        FairIsDie(n);
        var d := new Die.Of([0.0] + seq(n, _ => 1.0 / n as real));
        return Ok(d);
      } else if n == 0 {
        FairIsDie(0);
        var d := new Die.Of([1.0]);
        return Ok(d);
      } else {
        return Err(NegativeSides);
      }
    }

    /** `Die(ws)` for a list of weights. */
    static method FromWeights(ws: seq<real>) returns (r: Result<Die>)
      ensures Normalize(ws).Err? ==> r == Err(Normalize(ws).error)
      ensures Normalize(ws).Ok? && Trailing(ws) <= 1 ==> r.Ok? && r.value.sides == Normalize(ws).value
      ensures Normalize(ws).Ok? && Trailing(ws) >= 2 ==> r == Err(TrimIndexError)
      ensures r.Ok? ==> fresh(r.value) && r.value.Valid() && r.value.reach == None
    {
      var made := NormalizeAsWritten(ws);
      if made.Err? {
        return Err(made.error);
      }
      var d := new Die.Of(made.value);
      return Ok(d);
    }

    /** `Die.const(v)`: `Die([0.0]*v + [1.0])`. */
    static method Const(v: int) returns (r: Die)
      ensures fresh(r) && r.Valid() && r.reach == None
      ensures r.sides == Distribution.Const(v)
    {
      var ws := Zeros(if v < 0 then 0 else v) + [1.0];
      ConstIsDie(v);
      TrailingCases(ws);
      var made := FromWeights(ws);
      r := made.value;
    }

    /** `self + other` */
    method Add(other: Die) returns (r: Die)
      requires Valid() && other.Valid()
      ensures fresh(r) && r.Valid() && r.reach == None
      ensures r.sides == Convolve(sides, other.sides)
    {
      var total := Accumulate(sides, other.sides);
      NormalizeConvolution(sides, other.sides);
      ConvolveIsDie(sides, other.sides);
      TrailingCases(total);
      var made := FromWeights(total);
      r := made.value;
    }

    /** `Die(list_of_dice)`: `reduce(operator.add, dice, Die.const(0))`. */
    static method SumOf(ds: seq<Die>) returns (r: Die)
      requires forall i :: 0 <= i < |ds| ==> ds[i].Valid()
      ensures AllDice(SidesList(ds))
      ensures fresh(r) && r.Valid() && r.reach == None
      ensures r.sides == SumDice(SidesList(ds))
    {
      assert AllDice(SidesList(ds));
      r := Const(0);
      ConstIsDie(0);
      var i := 0;
      while i < |ds|
        invariant 0 <= i <= |ds|
        invariant AllDice(SidesList(ds[..i]))
        invariant fresh(r) && r.Valid() && r.reach == None
        invariant r.sides == SumDice(SidesList(ds[..i]))
      {
        SumOfStep(ds, i);
        r := r.Add(ds[i]);
        i := i + 1;
      }
      assert ds[..i] == ds;
    }

    /** `Die(arg)`, dispatching on the type of the argument. A die argument
        is copied by the first `if` and then rejected by the `else` of the
        second, so `Die(d)` raises TypeError. */
    static method Create(arg: Arg) returns (r: Result<Die>)
      requires arg.DiceArg? ==> forall i :: 0 <= i < |arg.dice| ==> arg.dice[i].Valid()
      ensures arg.IntArg? ==> (r.Err? <==> arg.n < 0) && (r.Ok? ==> r.value.sides == Fair(arg.n))
      ensures arg.ListArg? && Normalize(arg.ws).Err? ==> r == Err(InvalidProbabilities)
      ensures arg.ListArg? && Normalize(arg.ws).Ok? && Trailing(arg.ws) <= 1 ==>
        r.Ok? && r.value.sides == Normalize(arg.ws).value
      ensures arg.ListArg? && Normalize(arg.ws).Ok? && Trailing(arg.ws) >= 2 ==> r == Err(TrimIndexError)
      ensures arg.DiceArg? ==> AllDice(SidesList(arg.dice))
      ensures arg.DiceArg? ==> r.Ok? && r.value.sides == SumDice(SidesList(arg.dice))
      ensures arg.DieArg? ==> r == Err(NotListOrInt)
      ensures r.Ok? ==> fresh(r.value) && r.value.Valid() && r.value.reach == None
    {
      match arg
      case IntArg(n) =>
        r := FromInt(n);
      case ListArg(ws) =>
        r := FromWeights(ws);
      case DiceArg(dice) =>
        var d := SumOf(dice);
        r := Ok(d);
      case DieArg(_) =>
        r := Err(NotListOrInt);
    }

    /** `self.duplicate(n)`: `Die([self]*n)`. */
    method Duplicate(n: int) returns (r: Die)
      requires Valid()
      ensures fresh(r) && r.Valid() && r.reach == None
      ensures r.sides == Dup(sides, n)
    {
      var copies := seq(if n < 0 then 0 else n, _ => this);
      r := SumOf(copies);
      var m: nat := if n < 0 then 0 else n;
      assert SidesList(copies) == seq(m, _ => sides);
      DupIsSumOfCopies(sides, m);
      DupBase(sides, n);
    }

    /** `_compute_reach`: fill the cache once, from s = 1 down by each weight. */
    method ComputeReach()
      requires Valid()
      modifies this
      ensures Valid() && reach.Some?
      ensures old(reach).Some? ==> reach == old(reach)
    {
      if reach.None? {
        var table: seq<real> := [];
        var s := 1.0;
        var i := 0;
        while i < |sides|
          invariant 0 <= i <= |sides|
          invariant table == Reach(sides)[..i]
          invariant s == 1.0 - Sigma(Ext(sides), 0, i)
        {
          table := table + [s];
          s := s - sides[i];
          i := i + 1;
        }
        reach := Some(table);
      }
    }

    /** `probability_reach()`: reach[k] is the chance of rolling at least k. */
    method ProbabilityReach() returns (table: seq<real>)
      requires Valid()
      modifies this
      ensures Valid() && reach == Some(table)
      ensures table == Reach(sides)
      ensures old(reach).Some? ==> table == old(reach).value
    {
      ComputeReach();
      table := reach.value;
    }

    /** `probability_vs(opponent)`: the chance of rolling higher. */
    method ProbabilityVs(opponent: Die) returns (p: real)
      requires Valid() && opponent.Valid()
      modifies this
      ensures Valid() && reach == Some(Reach(sides))
      ensures p == Vs(sides, opponent.sides)
    {
      var table := ProbabilityReach();
      p := ZipDot(opponent.sides, table[1..]);
    }

    /** `probability_eq(other)`: the chance of rolling the same, which is
        what is left once either die wins. */
    function ProbabilityEq(other: Die): (p: real)
      ensures p == Eq(other.sides, sides)
      ensures IsDie(sides) && IsDie(other.sides) ==>
                p == 1.0 - Vs(sides, other.sides) - Vs(other.sides, sides)
    {
      EqSymmetric(sides, other.sides);
      if IsDie(sides) && IsDie(other.sides) then
        WinLoseTie(sides, other.sides);
        Eq(sides, other.sides)
      else
        Eq(sides, other.sides)
    }

    /** `roll(rnd)`: subtract the weights from rnd until it drops below 0. */
    method Roll(rnd: real) returns (r: RollResult)
      requires Valid()
      ensures r == InvalidRnd <==> !(0.0 <= rnd < 1.0)
      ensures 0.0 <= rnd < 1.0 ==> r.Rolled?
      ensures r.Rolled? ==> r.outcome < |sides|
      ensures r.Rolled? ==> Cumulative(sides, r.outcome) <= rnd < Cumulative(sides, r.outcome + 1)
      ensures r.Rolled? ==> forall j :: 0 < j <= r.outcome ==> rnd >= Cumulative(sides, j)
      ensures r.Rolled? ==> sides[r.outcome] > 0.0
    {
      if !(0.0 <= rnd < 1.0) {
        return InvalidRnd;
      }
      var left := rnd;
      var i := 0;
      while i < |sides|
        invariant 0 <= i <= |sides|
        invariant left == rnd - Cumulative(sides, i)
        invariant left >= 0.0
        invariant forall j :: 0 < j <= i ==> rnd >= Cumulative(sides, j)
      {
        left := left - sides[i];
        if left < 0.0 {
          return Rolled(i);
        }
        i := i + 1;
      }
      assert false;
      r := NoOutcome;
    }
  }
}
