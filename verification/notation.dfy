/** `from_string`: the dice notation. The input is split on whitespace and
    each token is one of `N` (a constant), `dN` (one fair die), `MdN` (M
    copies of one fair die) or `dA-dB` (the standard dice from A up to B);
    their dice are added up starting from the constant 0. A `DiceCounter`
    caps the number of dice and a `SideReader` the number of sides. */
module Notation {
  import opened Sums
  import opened Decimal
  import opened Distribution
  import opened Dice
  import opened Wrappers

  // ---------------------------------------------------------------------------
  // `str.split()` with no separator

  /** The ASCII characters `str.isspace()` accepts. */
  predicate IsSpace(c: char)
  {
    c == ' ' || 9 <= c as int <= 13 || 28 <= c as int <= 31
  }

  predicate IsWord(w: string)
  {
    |w| > 0 && forall i :: 0 <= i < |w| ==> !IsSpace(w[i])
  }

  /** Length of the leading run of non-space characters. */
  function WordLen(s: string): (n: nat)
    ensures n <= |s|
    ensures forall i :: 0 <= i < n ==> !IsSpace(s[i])
    ensures n < |s| ==> IsSpace(s[n])
  {
    if |s| == 0 || IsSpace(s[0]) then 0 else 1 + WordLen(s[1..])
  }

  function Words(s: string): (ws: seq<string>)
    ensures forall k :: 0 <= k < |ws| ==> IsWord(ws[k])
    decreases |s|
  {
    if |s| == 0 then []
    else if IsSpace(s[0]) then Words(s[1..])
    else
      var n := WordLen(s);
      [s[..n]] + Words(s[n..])
  }

  /** The words joined by single spaces. */
  function Unwords(ws: seq<string>): string
  {
    if |ws| == 0 then "" else ws[0] + " " + Unwords(ws[1..])
  }

  /** Splitting finds nothing exactly in blank input. */
  lemma {:induction false} WordsBlank(s: string)
    ensures Words(s) == [] <==> forall i :: 0 <= i < |s| ==> IsSpace(s[i])
    decreases |s|
  {
    if |s| > 0 && IsSpace(s[0]) {
      WordsBlank(s[1..]);
      if forall i :: 0 <= i < |s| - 1 ==> IsSpace(s[1..][i]) {
        forall i | 0 <= i < |s| ensures IsSpace(s[i]) {
          if i > 0 {
            assert s[i] == s[1..][i - 1];
          }
        }
      }
    }
  }

  lemma {:induction false} WordLenOfWord(w: string, rest: string)
    requires forall i :: 0 <= i < |w| ==> !IsSpace(w[i])
    requires |rest| == 0 || IsSpace(rest[0])
    ensures WordLen(w + rest) == |w|
    decreases |w|
  {
    if |w| > 0 {
      assert (w + rest)[1..] == w[1..] + rest;
      WordLenOfWord(w[1..], rest);
    }
  }

  /** A word followed by a space splits off as the first word. */
  lemma WordsCons(w: string, rest: string)
    requires IsWord(w)
    ensures Words(w + " " + rest) == [w] + Words(rest)
  {
    var s := w + " " + rest;
    assert s == w + (" " + rest);
    WordLenOfWord(w, " " + rest);
    assert s[..|w|] == w;
    assert s[|w|..] == " " + rest;
    assert (" " + rest)[1..] == rest;
  }

  /** Splitting undoes joining. */
  lemma {:induction false} WordsOfUnwords(ws: seq<string>)
    requires forall k :: 0 <= k < |ws| ==> IsWord(ws[k])
    ensures Words(Unwords(ws)) == ws
  {
    if |ws| > 0 {
      WordsOfUnwords(ws[1..]);
      WordsCons(ws[0], Unwords(ws[1..]));
    }
  }

  /** Splitting two texts joined by a space gives the words of each. */
  lemma {:induction false} WordsAppend(x: string, y: string)
    ensures Words(x + " " + y) == Words(x) + Words(y)
    decreases |x|
  {
    if |x| == 0 {
      assert x + " " + y == " " + y;
      assert (" " + y)[1..] == y;
    } else if IsSpace(x[0]) {
      assert (x + " " + y)[1..] == x[1..] + " " + y;
      WordsAppend(x[1..], y);
    } else {
      var n := WordLen(x);
      var s := x + " " + y;
      WordLenOfWord(x[..n], x[n..] + " " + y);
      assert s == x[..n] + (x[n..] + " " + y);
      assert s[..n] == x[..n];
      assert s[n..] == x[n..] + " " + y;
      WordsAppend(x[n..], y);
    }
  }

  // ---------------------------------------------------------------------------
  // The four token regexes

  predicate IsDieLetter(c: char)
  {
    c == 'd' || c == 'D'
  }

  /** Length of the leading run of digits. */
  function LeadDigits(s: string): (n: nat)
    ensures n <= |s|
    ensures forall i :: 0 <= i < n ==> IsDigit(s[i])
    ensures n < |s| ==> !IsDigit(s[n])
  {
    if |s| == 0 || !IsDigit(s[0]) then 0 else 1 + LeadDigits(s[1..])
  }

  /** `^(\d+)$` */
  predicate ConstForm(t: string)
  {
    IsDigits(t)
  }

  /** `^[dD](\d+)$` */
  predicate SingleForm(t: string)
  {
    |t| >= 2 && IsDieLetter(t[0]) && IsDigits(t[1..])
  }

  /** `^(\d+)[dD](\d+)$` */
  predicate MultiForm(t: string)
  {
    exists i :: 0 < i && i + 1 < |t| && IsDigits(t[..i]) && IsDieLetter(t[i]) && IsDigits(t[i + 1..])
  }

  /** `^[dD](\d+)-[dD](\d+)$` */
  predicate SeqForm(t: string)
  {
    exists j :: 1 < j && j + 2 < |t| && IsDieLetter(t[0]) && IsDigits(t[1..j]) && t[j] == '-'
      && IsDieLetter(t[j + 1]) && IsDigits(t[j + 2..])
  }

  datatype Token =
    | ConstTok(value: string)
    | SingleTok(letter: char, sides: string)
    | MultiTok(copies: string, letter: char, sides: string)
    | SeqTok(letter1: char, first: string, letter2: char, last: string)
    | BadTok

  /** The token spelled back out. */
  function Render(tok: Token): string
  {
    match tok
    case ConstTok(v) => v
    case SingleTok(l, s) => [l] + s
    case MultiTok(c, l, s) => c + [l] + s
    case SeqTok(l1, f, l2, l) => [l1] + f + "-" + [l2] + l
    case BadTok => ""
  }

  predicate WellFormed(tok: Token)
  {
    match tok
    case ConstTok(v) => IsDigits(v)
    case SingleTok(l, s) => IsDieLetter(l) && IsDigits(s)
    case MultiTok(c, l, s) => IsDigits(c) && IsDieLetter(l) && IsDigits(s)
    case SeqTok(l1, f, l2, l) => IsDieLetter(l1) && IsDigits(f) && IsDieLetter(l2) && IsDigits(l)
    case BadTok => true
  }

  lemma DigitsEnd(s: string, i: int)
    requires 0 <= i < |s| && IsDigits(s[..i]) && !IsDigit(s[i])
    ensures LeadDigits(s) == i
  {
    assert forall k :: 0 <= k < i ==> s[..i][k] == s[k];
  }

  /** The regexes tried in order: constant, single, multiple, sequence. */
  function Classify(t: string): (r: Token)
    ensures WellFormed(r)
    ensures !r.BadTok? ==> Render(r) == t
  {
    if IsDigits(t) then
      ConstTok(t)
    else if SingleForm(t) then
      assert [t[0]] + t[1..] == t;
      SingleTok(t[0], t[1..])
    else
      var i := LeadDigits(t);
      if 0 < i && i + 1 < |t| && IsDieLetter(t[i]) && IsDigits(t[i + 1..]) then
        assert forall k :: 0 <= k < i ==> t[..i][k] == t[k];
        assert t[..i] + [t[i]] + t[i + 1..] == t;
        MultiTok(t[..i], t[i], t[i + 1..])
      else if |t| >= 1 && IsDieLetter(t[0]) then
        var j := 1 + LeadDigits(t[1..]);
        if 1 < j && j + 2 < |t| && t[j] == '-' && IsDieLetter(t[j + 1]) && IsDigits(t[j + 2..]) then
          assert forall k :: 0 <= k < j - 1 ==> t[1..j][k] == t[1..][k];
          assert [t[0]] + t[1..j] + "-" + [t[j + 1]] + t[j + 2..] == t;
          SeqTok(t[0], t[1..j], t[j + 1], t[j + 2..])
        else
          BadTok
      else
        BadTok
  }

  lemma NotMulti(t: string)
    requires var i := LeadDigits(t); !(0 < i && i + 1 < |t| && IsDieLetter(t[i]) && IsDigits(t[i + 1..]))
    ensures !MultiForm(t)
  {
    if k :| 0 < k && k + 1 < |t| && IsDigits(t[..k]) && IsDieLetter(t[k]) && IsDigits(t[k + 1..]) {
      DigitsEnd(t, k);
    }
  }

  lemma NotSeq(t: string)
    requires |t| >= 1 && IsDieLetter(t[0])
    requires var j := 1 + LeadDigits(t[1..]);
      !(1 < j && j + 2 < |t| && t[j] == '-' && IsDieLetter(t[j + 1]) && IsDigits(t[j + 2..]))
    ensures !SeqForm(t)
  {
    if k :| (1 < k && k + 2 < |t| && IsDieLetter(t[0]) && IsDigits(t[1..k]) && t[k] == '-'
             && IsDieLetter(t[k + 1]) && IsDigits(t[k + 2..]))
    {
      assert t[1..][..k - 1] == t[1..k];
      DigitsEnd(t[1..], k - 1);
    }
  }

  /** The four forms do not overlap. */
  lemma FormsDisjoint(t: string)
    ensures ConstForm(t) ==> !SingleForm(t) && !MultiForm(t) && !SeqForm(t)
    ensures SingleForm(t) ==> !MultiForm(t) && !SeqForm(t)
    ensures MultiForm(t) ==> !SeqForm(t)
  {
    if |t| > 0 && IsDigit(t[0]) {
      assert !SeqForm(t);
      assert !SingleForm(t);
    }
    if MultiForm(t) {
      var k :| 0 < k && k + 1 < |t| && IsDigits(t[..k]) && IsDieLetter(t[k]) && IsDigits(t[k + 1..]);
      assert t[..k][0] == t[0];
      assert !ConstForm(t);
    }
    if SingleForm(t) {
      assert !ConstForm(t);
      forall j | 1 < j < |t| ensures t[j] != '-' {
        assert t[1..][j - 1] == t[j];
      }
    }
    if SeqForm(t) {
      var j :| 1 < j && j + 2 < |t| && IsDieLetter(t[0]) && IsDigits(t[1..j]) && t[j] == '-'
        && IsDieLetter(t[j + 1]) && IsDigits(t[j + 2..]);
      assert !ConstForm(t);
    }
  }

  lemma MultiChosen(t: string)
    requires !IsDigits(t) && !SingleForm(t)
    ensures Classify(t).MultiTok? <==> MultiForm(t)
  {
    var i := LeadDigits(t);
    if 0 < i && i + 1 < |t| && IsDieLetter(t[i]) && IsDigits(t[i + 1..]) {
      assert forall k :: 0 <= k < i ==> t[..i][k] == t[k];
      assert IsDigits(t[..i]);
    } else {
      NotMulti(t);
    }
  }

  lemma SeqChosen(t: string)
    requires !IsDigits(t) && !SingleForm(t) && !MultiForm(t)
    ensures Classify(t).SeqTok? <==> SeqForm(t)
  {
    MultiChosen(t);
    if |t| >= 1 && IsDieLetter(t[0]) {
      var j := 1 + LeadDigits(t[1..]);
      if 1 < j && j + 2 < |t| && t[j] == '-' && IsDieLetter(t[j + 1]) && IsDigits(t[j + 2..]) {
        assert forall k :: 0 <= k < j - 1 ==> t[1..j][k] == t[1..][k];
        assert IsDigits(t[1..j]);
      } else {
        NotSeq(t);
      }
    }
  }

  /** Each token kind is chosen exactly when its regex matches. */
  lemma ClassifyForms(t: string)
    ensures Classify(t).ConstTok? <==> ConstForm(t)
    ensures Classify(t).SingleTok? <==> SingleForm(t)
    ensures Classify(t).MultiTok? <==> MultiForm(t)
    ensures Classify(t).SeqTok? <==> SeqForm(t)
  {
    FormsDisjoint(t);
    if !IsDigits(t) && !SingleForm(t) {
      MultiChosen(t);
      if !MultiForm(t) {
        SeqChosen(t);
      }
    }
  }

  /** Classifying a spelled-out token gives the token back. */
  lemma ClassifyRender(tok: Token)
    requires WellFormed(tok) && !tok.BadTok?
    ensures Classify(Render(tok)) == tok
  {
    match tok
    case ConstTok(v) =>
    case SingleTok(l, s) =>
      var t := Render(tok);
      assert !IsDigit(t[0]) && t[1..] == s;
    case MultiTok(c, l, s) =>
      RenderMulti(c, l, s);
    case SeqTok(l1, f, l2, l) =>
      RenderSeq(l1, f, l2, l);
  }

  lemma RenderMulti(c: string, l: char, s: string)
    requires IsDigits(c) && IsDieLetter(l) && IsDigits(s)
    ensures Classify(c + [l] + s) == MultiTok(c, l, s)
  {
    var t := c + [l] + s;
    var i := |c|;
    assert t[..i] == c && t[i] == l && t[i + 1..] == s;
    assert !IsDigits(t);
    assert t[0] == c[0];
    DigitsEnd(t, i);
  }

  lemma RenderSeq(l1: char, f: string, l2: char, l: string)
    requires IsDieLetter(l1) && IsDigits(f) && IsDieLetter(l2) && IsDigits(l)
    ensures Classify([l1] + f + "-" + [l2] + l) == SeqTok(l1, f, l2, l)
  {
    var t := [l1] + f + "-" + [l2] + l;
    var j := 1 + |f|;
    assert t[1..j] == f && t[j] == '-' && t[j + 1] == l2 && t[j + 2..] == l;
    assert !IsDigits(t) && !IsDigit(t[0]);
    assert t[1..][j - 1] == '-';
    assert !SingleForm(t);
    assert t[1..][..j - 1] == f;
    DigitsEnd(t[1..], j - 1);
  }

  // ---------------------------------------------------------------------------
  // Errors, the side reader and the dice counter

  datatype ParseError =
    | TooManyDice(limit: int)       // "Only %d dice are allowed."
    | TooManySides(limit: int)      // "Max %d sides for a die"
    | InvalidSequence(token: string)
    | InvalidDie(token: string)

  datatype Checked<T> = Pass(value: T) | Fail(error: ParseError)

  /** `SideReader(max_sides)`: `None` is no limit. */
  datatype SideReader = SideReader(maxSides: Option<int>)
  {
    /** `read(raw)`: `int(raw)`, rejected above the limit. */
    function Read(raw: string): (r: Checked<nat>)
      requires IsDigits(raw)
      ensures r.Fail? <==> maxSides.Some? && Value(raw) > maxSides.value
      ensures r.Fail? ==> r.error == TooManySides(maxSides.value)
      ensures r.Pass? ==> r.value == Value(raw)
    {
      var sides := Value(raw);
      if maxSides.Some? && sides > maxSides.value then Fail(TooManySides(maxSides.value)) else Pass(sides)
    }
  }

  /** Reading the decimal spelling of n, with or without leading zeros. */
  lemma ReadDecimal(reader: SideReader, n: nat, zeros: nat)
    ensures IsDigits(seq(zeros, _ => '0') + ToDecimal(n))
    ensures reader.Read(seq(zeros, _ => '0') + ToDecimal(n))
      == if reader.maxSides.Some? && n > reader.maxSides.value then Fail(TooManySides(reader.maxSides.value)) else Pass(n)
  {
    ValueOfDecimal(n);
    PaddedValue(ToDecimal(n), zeros);
  }

  lemma {:induction false} PaddedValue(s: string, zeros: nat)
    requires IsDigits(s)
    ensures IsDigits(seq(zeros, _ => '0') + s)
    ensures Value(seq(zeros, _ => '0') + s) == Value(s)
  {
    if zeros > 0 {
      PaddedValue(s, zeros - 1);
      var p := seq(zeros - 1, _ => '0') + s;
      assert seq(zeros, _ => '0') + s == "0" + p;
      LeadingZero(p);
      forall i | 0 <= i < |p| + 1 ensures IsDigit(("0" + p)[i]) {
        if i > 0 {
          assert ("0" + p)[i] == p[i - 1];
        }
      }
    } else {
      assert seq(zeros, _ => '0') + s == s;
    }
  }

  function Over(maxDice: Option<int>, n: int): bool
  {
    maxDice.Some? && n > maxDice.value
  }

  /** `DiceCounter(max_dice)`: the number of dice seen so far. */
  class DiceCounter {
    const maxDice: Option<int>
    var numDice: int

    constructor(maxDice: Option<int>)
      ensures this.maxDice == maxDice && numDice == 0
    {
      this.maxDice := maxDice;
      numDice := 0;
    }

    /** `count(dice)`: add, then complain if past the limit. */
    method Count(dice: int) returns (error: Option<ParseError>)
      modifies this
      ensures numDice == old(numDice) + dice
      ensures error.Some? <==> Over(maxDice, numDice)
      ensures error.Some? ==> error.value == TooManyDice(maxDice.value)
    {
      numDice := numDice + dice;
      if maxDice.Some? && numDice > maxDice.value {
        return Some(TooManyDice(maxDice.value));
      }
      return None;
    }
  }

  // ---------------------------------------------------------------------------
  // `_DIE_SEQ` and the dice of a `dA-dB` token

  const DieSeq: seq<int> := [4, 6, 8, 10, 12, 20]

  /** `xs.index(x)`, None for ValueError. */
  function IndexOf(xs: seq<int>, x: int): (r: Option<nat>)
    ensures r.None? <==> x !in xs
    ensures r.Some? ==> r.value < |xs| && xs[r.value] == x
    ensures r.Some? ==> forall j :: 0 <= j < r.value ==> xs[j] != x
  {
    if |xs| == 0 then None
    else if xs[0] == x then Some(0)
    else
      var rest := IndexOf(xs[1..], x);
      assert x in xs[1..] ==> x in xs;
      assert x in xs ==> x in xs[1..] by {
        if x in xs {
          var k :| 0 <= k < |xs| && xs[k] == x;
          assert xs[1..][k - 1] == x;
        }
      }
      if rest.None? then None else Some(rest.value + 1)
  }

  /** The positions of A and B in `_DIE_SEQ`, when both are there in order. */
  function SeqRange(first: string, last: string): (r: Option<(nat, nat)>)
    requires IsDigits(first) && IsDigits(last)
    ensures r.Some? ==> r.value.0 <= r.value.1 < |DieSeq|
    ensures r.Some? ==> DieSeq[r.value.0] == Value(first) && DieSeq[r.value.1] == Value(last)
    ensures r.None? <==>
      (Value(first) !in DieSeq || Value(last) !in DieSeq
       || IndexOf(DieSeq, Value(first)).value > IndexOf(DieSeq, Value(last)).value)
  {
    var start := IndexOf(DieSeq, Value(first));
    var stop := IndexOf(DieSeq, Value(last));
    if start.None? || stop.None? || start.value > stop.value then None else Some((start.value, stop.value))
  }

  /** `[makedie(n) for n in _DIE_SEQ[start:stop+1]]` as weights. */
  function SeqDice(start: nat, stop: nat): (r: seq<seq<real>>)
    requires start <= stop < |DieSeq|
    ensures |r| == stop + 1 - start && AllDice(r)
    ensures forall k :: 0 <= k < |r| ==> r[k] == Fair(DieSeq[start + k])
  {
    var r := seq(stop + 1 - start, k requires 0 <= k < stop + 1 - start => Fair(DieSeq[start + k]));
    forall k | 0 <= k < |r| ensures IsDie(r[k]) {
      FairIsDie(DieSeq[start + k]);
    }
    r
  }

  // ---------------------------------------------------------------------------
  // What a token and a token list denote

  /** The dice counted so far and the die described so far. */
  datatype Contribution = Contribution(dice: int, weights: seq<real>)

  /** `N`: `const(readsides(N))`; no dice are counted. */
  function ConstDie(reader: SideReader, v: string, counted: int): (r: Checked<Contribution>)
    requires IsDigits(v)
    ensures r.Pass? ==> IsDie(r.value.weights) && r.value.dice == counted
    ensures r.Fail? ==> r.error.TooManySides?
  {
    match reader.Read(v)
    case Fail(e) => Fail(e)
    case Pass(n) =>
      ConstIsDie(n);
      Pass(Contribution(counted, Distribution.Const(n)))
  }

  /** `dN`: count one die, then `Die(readsides(N))`. */
  function SingleDie(reader: SideReader, maxDice: Option<int>, s: string, counted: int): (r: Checked<Contribution>)
    requires IsDigits(s)
    ensures r.Pass? ==> IsDie(r.value.weights) && r.value.dice == counted + 1 && !Over(maxDice, r.value.dice)
    ensures r.Fail? ==> r.error.TooManySides? || r.error.TooManyDice?
  {
    if Over(maxDice, counted + 1) then Fail(TooManyDice(maxDice.value))
    else
      match reader.Read(s)
      case Fail(e) => Fail(e)
      case Pass(n) =>
        FairIsDie(n);
        Pass(Contribution(counted + 1, Fair(n)))
  }

  /** `MdN`: read the sides, then count M dice, then M copies of `Die(N)`. */
  function MultiDie(reader: SideReader, maxDice: Option<int>, c: string, s: string, counted: int)
    : (r: Checked<Contribution>)
    requires IsDigits(c) && IsDigits(s)
    ensures r.Pass? ==> IsDie(r.value.weights) && r.value.dice == counted + Value(c) && !Over(maxDice, r.value.dice)
    ensures r.Fail? ==> r.error.TooManySides? || r.error.TooManyDice?
  {
    match reader.Read(s)
    case Fail(e) => Fail(e)
    case Pass(n) =>
      var copies := Value(c);
      if Over(maxDice, counted + copies) then Fail(TooManyDice(maxDice.value))
      else
        FairIsDie(n);
        DupIsDie(Fair(n), copies);
        Pass(Contribution(counted + copies, Dup(Fair(n), copies)))
  }

  /** `dA-dB`: look A and B up, count the dice between them, add them up.
      The side limit plays no part. */
  function SeqDie(maxDice: Option<int>, t: string, f: string, l: string, counted: int): (r: Checked<Contribution>)
    requires IsDigits(f) && IsDigits(l)
    ensures r.Pass? ==> IsDie(r.value.weights) && SeqRange(f, l).Some? && !Over(maxDice, r.value.dice)
    ensures r.Pass? ==> r.value.dice == counted + (SeqRange(f, l).value.1 + 1 - SeqRange(f, l).value.0)
    ensures r.Fail? && r.error.InvalidSequence? <==> SeqRange(f, l).None?
  {
    match SeqRange(f, l)
    case None => Fail(InvalidSequence(t))
    case Some((start, stop)) =>
      if Over(maxDice, counted + (stop + 1 - start)) then Fail(TooManyDice(maxDice.value))
      else Pass(Contribution(counted + (stop + 1 - start), SumDice(SeqDice(start, stop))))
  }

  /** One pass of the loop body, after `counted` dice: the error it raises,
      or the new count and the die it adds. */
  function TokenDie(t: string, reader: SideReader, maxDice: Option<int>, counted: int): (r: Checked<Contribution>)
    ensures r.Pass? ==> IsDie(r.value.weights)
  {
    match Classify(t)
    case ConstTok(v) => ConstDie(reader, v, counted)
    case SingleTok(_, s) => SingleDie(reader, maxDice, s, counted)
    case MultiTok(c, _, s) => MultiDie(reader, maxDice, c, s, counted)
    case SeqTok(_, f, _, l) => SeqDie(maxDice, t, f, l, counted)
    case BadTok => Fail(InvalidDie(t))
  }

  /** How many dice the token registers with the counter. */
  function TokenCount(t: string): nat
  {
    match Classify(t)
    case SingleTok(_, _) => 1
    case MultiTok(c, _, _) => Value(c)
    case SeqTok(_, f, _, l) =>
      var range := SeqRange(f, l);
      if range.Some? then range.value.1 + 1 - range.value.0 else 0
    case _ => 0
  }

  /** The values that go through the side cap: the constant and the sides. */
  predicate SidesWithin(t: string, limit: int)
  {
    match Classify(t)
    case ConstTok(v) => Value(v) <= limit
    case SingleTok(_, s) => Value(s) <= limit
    case MultiTok(_, _, s) => Value(s) <= limit
    case _ => true
  }

  /** A token that parses adds its count, and one that counts dice stays
      within the dice limit. */
  lemma TokenDieCount(t: string, reader: SideReader, maxDice: Option<int>, counted: int)
    ensures var r := TokenDie(t, reader, maxDice, counted);
      r.Pass? ==> r.value.dice == counted + TokenCount(t)
    ensures var r := TokenDie(t, reader, maxDice, counted);
      r.Pass? && TokenCount(t) > 0 ==> !Over(maxDice, r.value.dice)
  {
    match Classify(t) {
      case ConstTok(v) =>
      case SingleTok(_, s) =>
      case MultiTok(c, _, s) =>
      case SeqTok(_, f, _, l) =>
      case BadTok =>
    }
  }

  /** A token that matches no regex is an invalid die. */
  lemma TokenDieBad(t: string, reader: SideReader, maxDice: Option<int>, counted: int)
    requires Classify(t).BadTok?
    ensures TokenDie(t, reader, maxDice, counted) == Fail(InvalidDie(t))
  {
  }

  /** Only a `dA-dB` token outside `_DIE_SEQ` or out of order is an invalid
      sequence, and the error names the token. */
  lemma TokenDieSequence(t: string, reader: SideReader, maxDice: Option<int>, counted: int)
    ensures var r := TokenDie(t, reader, maxDice, counted);
      r.Fail? && r.error.InvalidSequence? <==> Classify(t).SeqTok? && SeqRange(Classify(t).first, Classify(t).last).None?
    ensures var r := TokenDie(t, reader, maxDice, counted);
      r.Fail? && r.error.InvalidSequence? ==> r.error.token == t
  {
    match Classify(t) {
      case ConstTok(v) =>
        assert TokenDie(t, reader, maxDice, counted) == ConstDie(reader, v, counted);
      case SingleTok(_, s) =>
        assert TokenDie(t, reader, maxDice, counted) == SingleDie(reader, maxDice, s, counted);
      case MultiTok(c, _, s) =>
        assert TokenDie(t, reader, maxDice, counted) == MultiDie(reader, maxDice, c, s, counted);
      case SeqTok(_, f, _, l) =>
        assert TokenDie(t, reader, maxDice, counted) == SeqDie(maxDice, t, f, l, counted);
      case BadTok =>
    }
  }

  /** The loop over the tokens, starting from `const(0)`; the first error
      ends it. */
  function Parse(toks: seq<string>, reader: SideReader, maxDice: Option<int>): (r: Checked<Contribution>)
    ensures r.Pass? ==> IsDie(r.value.weights)
    decreases |toks|
  {
    if |toks| == 0 then
      ConstIsDie(0);
      Pass(Contribution(0, Distribution.Const(0)))
    else
      match Parse(toks[..|toks| - 1], reader, maxDice)
      case Fail(e) => Fail(e)
      case Pass(acc) =>
        match TokenDie(toks[|toks| - 1], reader, maxDice, acc.dice)
        case Fail(e) => Fail(e)
        case Pass(c) =>
          ConvolveIsDie(acc.weights, c.weights);
          Pass(Contribution(c.dice, Convolve(acc.weights, c.weights)))
  }

  datatype Outcome<T> = NoDice | Parsed(value: T) | Failed(error: ParseError)

  /** What `from_string(Die, raw, max_sides, max_dice)` denotes. */
  function Described(raw: string, maxSides: Option<int>, maxDice: Option<int>): Outcome<seq<real>>
  {
    var toks := Words(raw);
    if |toks| == 0 then NoDice
    else
      match Parse(toks, SideReader(maxSides), maxDice)
      case Fail(e) => Failed(e)
      case Pass(c) => Parsed(c.weights)
  }

  // ---------------------------------------------------------------------------
  // Properties of the notation

  /** Blank input describes no dice at all. */
  lemma DescribedBlank(raw: string, maxSides: Option<int>, maxDice: Option<int>)
    ensures Described(raw, maxSides, maxDice).NoDice? <==> forall i :: 0 <= i < |raw| ==> IsSpace(raw[i])
  {
    WordsBlank(raw);
  }

  /** An error in a prefix of the tokens is the error of the whole list. */
  lemma {:induction false} ParseFailure(toks: seq<string>, n: nat, reader: SideReader, maxDice: Option<int>)
    requires n <= |toks| && Parse(toks[..n], reader, maxDice).Fail?
    ensures Parse(toks, reader, maxDice) == Parse(toks[..n], reader, maxDice)
    decreases |toks| - n
  {
    if n < |toks| {
      assert toks[..n + 1][..n] == toks[..n];
      ParseFailure(toks, n + 1, reader, maxDice);
    } else {
      assert toks[..n] == toks;
    }
  }

  /** The running count of dice over a token list. */
  function CountOf(toks: seq<string>): nat
  {
    if |toks| == 0 then 0 else CountOf(toks[..|toks| - 1]) + TokenCount(toks[|toks| - 1])
  }

  lemma TokenDieDiceCap(t: string, reader: SideReader, limit: int, counted: int)
    requires counted <= limit
    ensures TokenDie(t, reader, Some(limit), counted).Pass?
      <==> TokenDie(t, reader, None, counted).Pass? && counted + TokenCount(t) <= limit
    ensures TokenDie(t, reader, Some(limit), counted).Pass? ==>
      TokenDie(t, reader, Some(limit), counted) == TokenDie(t, reader, None, counted)
  {
    match Classify(t) {
      case ConstTok(_) =>
      case SingleTok(_, s) => SingleDiceCap(reader, limit, s, counted);
      case MultiTok(c, _, s) => MultiDiceCap(reader, limit, c, s, counted);
      case SeqTok(_, f, _, l) => SeqDiceCap(limit, t, f, l, counted);
      case BadTok =>
    }
  }

  lemma SingleDiceCap(reader: SideReader, limit: int, s: string, counted: int)
    requires IsDigits(s) && counted <= limit
    ensures SingleDie(reader, Some(limit), s, counted).Pass?
      <==> SingleDie(reader, None, s, counted).Pass? && counted + 1 <= limit
    ensures SingleDie(reader, Some(limit), s, counted).Pass? ==>
      SingleDie(reader, Some(limit), s, counted) == SingleDie(reader, None, s, counted)
  {
  }

  lemma MultiDiceCap(reader: SideReader, limit: int, c: string, s: string, counted: int)
    requires IsDigits(c) && IsDigits(s) && counted <= limit
    ensures MultiDie(reader, Some(limit), c, s, counted).Pass?
      <==> MultiDie(reader, None, c, s, counted).Pass? && counted + Value(c) <= limit
    ensures MultiDie(reader, Some(limit), c, s, counted).Pass? ==>
      MultiDie(reader, Some(limit), c, s, counted) == MultiDie(reader, None, c, s, counted)
  {
  }

  lemma SeqDiceCap(limit: int, t: string, f: string, l: string, counted: int)
    requires IsDigits(f) && IsDigits(l) && counted <= limit
    ensures SeqDie(Some(limit), t, f, l, counted).Pass? <==>
      SeqDie(None, t, f, l, counted).Pass? && counted + (SeqRange(f, l).value.1 + 1 - SeqRange(f, l).value.0) <= limit
    ensures SeqDie(Some(limit), t, f, l, counted).Pass? ==>
      SeqDie(Some(limit), t, f, l, counted) == SeqDie(None, t, f, l, counted)
  {
  }

  /** A non-negative dice limit only turns a successful parse into
      TooManyDice, and does so exactly when the total count goes past it. */
  lemma {:induction false} ParseDiceCap(toks: seq<string>, reader: SideReader, limit: nat)
    ensures Parse(toks, reader, Some(limit)).Pass?
      <==> Parse(toks, reader, None).Pass? && CountOf(toks) <= limit
    ensures Parse(toks, reader, Some(limit)).Pass? ==>
      Parse(toks, reader, Some(limit)) == Parse(toks, reader, None)
    ensures Parse(toks, reader, None).Pass? ==> Parse(toks, reader, None).value.dice == CountOf(toks)
    decreases |toks|
  {
    if |toks| > 0 {
      var init := toks[..|toks| - 1];
      ParseDiceCap(init, reader, limit);
      if Parse(init, reader, None).Pass? {
        var n := Parse(init, reader, None).value.dice;
        if n <= limit {
          TokenDieDiceCap(toks[|toks| - 1], reader, limit, n);
        }
        TokenDieCount(toks[|toks| - 1], reader, None, n);
      }
    }
  }

  lemma TokenDieSideCap(t: string, limit: int, maxDice: Option<int>, counted: int)
    ensures TokenDie(t, SideReader(Some(limit)), maxDice, counted).Pass?
      <==> TokenDie(t, SideReader(None), maxDice, counted).Pass? && SidesWithin(t, limit)
    ensures TokenDie(t, SideReader(Some(limit)), maxDice, counted).Pass? ==>
      TokenDie(t, SideReader(Some(limit)), maxDice, counted) == TokenDie(t, SideReader(None), maxDice, counted)
  {
    match Classify(t) {
      case ConstTok(v) => ConstSideCap(limit, v, counted);
      case SingleTok(_, s) => SingleSideCap(limit, maxDice, s, counted);
      case MultiTok(c, _, s) => MultiSideCap(limit, maxDice, c, s, counted);
      case SeqTok(_, _, _, _) =>
      case BadTok =>
    }
  }

  lemma ConstSideCap(limit: int, v: string, counted: int)
    requires IsDigits(v)
    ensures ConstDie(SideReader(Some(limit)), v, counted).Pass?
      <==> ConstDie(SideReader(None), v, counted).Pass? && Value(v) <= limit
    ensures ConstDie(SideReader(Some(limit)), v, counted).Pass? ==>
      ConstDie(SideReader(Some(limit)), v, counted) == ConstDie(SideReader(None), v, counted)
  {
  }

  lemma SingleSideCap(limit: int, maxDice: Option<int>, s: string, counted: int)
    requires IsDigits(s)
    ensures SingleDie(SideReader(Some(limit)), maxDice, s, counted).Pass?
      <==> SingleDie(SideReader(None), maxDice, s, counted).Pass? && Value(s) <= limit
    ensures SingleDie(SideReader(Some(limit)), maxDice, s, counted).Pass? ==>
      SingleDie(SideReader(Some(limit)), maxDice, s, counted) == SingleDie(SideReader(None), maxDice, s, counted)
  {
  }

  lemma MultiSideCap(limit: int, maxDice: Option<int>, c: string, s: string, counted: int)
    requires IsDigits(c) && IsDigits(s)
    ensures MultiDie(SideReader(Some(limit)), maxDice, c, s, counted).Pass?
      <==> MultiDie(SideReader(None), maxDice, c, s, counted).Pass? && Value(s) <= limit
    ensures MultiDie(SideReader(Some(limit)), maxDice, c, s, counted).Pass? ==>
      MultiDie(SideReader(Some(limit)), maxDice, c, s, counted) == MultiDie(SideReader(None), maxDice, c, s, counted)
  {
  }

  /** A side limit only turns a successful parse into an error, and does so
      exactly when a constant or a side count goes past it. */
  lemma {:induction false} ParseSideCap(toks: seq<string>, limit: int, maxDice: Option<int>)
    ensures Parse(toks, SideReader(Some(limit)), maxDice).Pass?
      <==> Parse(toks, SideReader(None), maxDice).Pass? && forall k :: 0 <= k < |toks| ==> SidesWithin(toks[k], limit)
    ensures Parse(toks, SideReader(Some(limit)), maxDice).Pass? ==>
      Parse(toks, SideReader(Some(limit)), maxDice) == Parse(toks, SideReader(None), maxDice)
    decreases |toks|
  {
    if |toks| > 0 {
      var init := toks[..|toks| - 1];
      var t := toks[|toks| - 1];
      ParseSideCap(init, limit, maxDice);
      var capped, free := Parse(init, SideReader(Some(limit)), maxDice), Parse(init, SideReader(None), maxDice);
      if free.Pass? {
        TokenDieSideCap(t, limit, maxDice, free.value.dice);
      }
      assert (forall k :: 0 <= k < |toks| ==> SidesWithin(toks[k], limit))
        <==> (forall k :: 0 <= k < |init| ==> SidesWithin(init[k], limit)) && SidesWithin(t, limit);
    }
  }

  /** Without a dice limit, the die a token adds does not depend on the
      count before it. */
  lemma TokenDieShift(t: string, reader: SideReader, m: int, n: int)
    ensures TokenDie(t, reader, None, m).Pass? <==> TokenDie(t, reader, None, n).Pass?
    ensures TokenDie(t, reader, None, m).Pass? ==>
      TokenDie(t, reader, None, m).value.weights == TokenDie(t, reader, None, n).value.weights
  {
    match Classify(t) {
      case ConstTok(_) =>
      case SingleTok(_, _) =>
      case MultiTok(_, _, _) =>
      case SeqTok(_, _, _, _) =>
      case BadTok =>
    }
  }

  /** Without a dice limit, the tokens a and then b describe the sum of what
      a describes and what b describes. */
  lemma {:induction false} ParseAppend(a: seq<string>, b: seq<string>, reader: SideReader)
    ensures Parse(a + b, reader, None).Pass? <==> Parse(a, reader, None).Pass? && Parse(b, reader, None).Pass?
    ensures Parse(a + b, reader, None).Pass? ==>
      Parse(a + b, reader, None).value.weights
      == Convolve(Parse(a, reader, None).value.weights, Parse(b, reader, None).value.weights)
    decreases |b|
  {
    if |b| == 0 {
      assert a + b == a;
      ConstIsDie(0);
      if Parse(a, reader, None).Pass? {
        ConvolveIdentity(Parse(a, reader, None).value.weights);
      }
    } else {
      var b' := b[..|b| - 1];
      var t := b[|b| - 1];
      assert (a + b)[..|a + b| - 1] == a + b';
      assert (a + b)[|a + b| - 1] == t;
      assert b' + [t] == b && a + b' + [t] == a + b;
      ParseAppend(a, b', reader);
      AppendStep(a, b', t, reader);
    }
  }

  lemma AppendStep(a: seq<string>, b: seq<string>, t: string, reader: SideReader)
    requires Parse(a + b, reader, None).Pass? <==> Parse(a, reader, None).Pass? && Parse(b, reader, None).Pass?
    requires Parse(a + b, reader, None).Pass? ==>
      Parse(a + b, reader, None).value.weights
      == Convolve(Parse(a, reader, None).value.weights, Parse(b, reader, None).value.weights)
    ensures Parse(a + b + [t], reader, None).Pass?
      <==> Parse(a, reader, None).Pass? && Parse(b + [t], reader, None).Pass?
    ensures Parse(a + b + [t], reader, None).Pass? ==>
      Parse(a + b + [t], reader, None).value.weights
      == Convolve(Parse(a, reader, None).value.weights, Parse(b + [t], reader, None).value.weights)
  {
    assert (a + b + [t])[..|a + b|] == a + b;
    assert (b + [t])[..|b|] == b;
    var pab, pb := Parse(a + b, reader, None), Parse(b, reader, None);
    if pab.Pass? && pb.Pass? {
      TokenDieShift(t, reader, pab.value.dice, pb.value.dice);
      var td := TokenDie(t, reader, None, pb.value.dice);
      if td.Pass? {
        ConvolveAssociates(Parse(a, reader, None).value.weights, pb.value.weights, td.value.weights);
      }
    }
  }

  /** Without a dice limit, "x y" describes the sum of what x and y
      describe. */
  lemma DescribedConcat(x: string, y: string, maxSides: Option<int>)
    requires Described(x, maxSides, None).Parsed? && Described(y, maxSides, None).Parsed?
    ensures Described(x + " " + y, maxSides, None)
      == Parsed(Convolve(Described(x, maxSides, None).value, Described(y, maxSides, None).value))
  {
    WordsAppend(x, y);
    ParseAppend(Words(x), Words(y), SideReader(maxSides));
  }

  /** In `MdN` the side limit is checked before the dice count. */
  lemma MultiChecksSidesFirst()
    ensures TokenDie("3d8", SideReader(Some(6)), Some(2), 0) == Fail(TooManySides(6))
  {
    assert "3d8" == "3" + ['d'] + "8";
    RenderMulti("3", 'd', "8");
    assert Value("8") == 8;
  }

  /** In `dN` the dice count is checked before the side limit. */
  lemma SingleCountsFirst()
    ensures TokenDie("d8", SideReader(Some(6)), Some(0), 0) == Fail(TooManyDice(0))
  {
    assert "d8"[1..] == "8";
  }

  /** Constants go through the side limit too. */
  lemma ConstantsCapped()
    ensures TokenDie("7", SideReader(Some(6)), None, 0) == Fail(TooManySides(6))
  {
    assert Value("7") == 7;
  }

  lemma WholeSequence()
    ensures SeqRange("4", "20") == Some((0, 5))
  {
    assert Value("4") == 4;
    assert Value("20") == 20 by {
      assert "20"[..1] == "2";
    }
    assert IndexOf(DieSeq, 4) == Some(0);
    assert IndexOf(DieSeq, 20) == Some(5);
  }

  /** Without a dice limit, a `dA-dB` token naming a run of the die
      sequence is accepted, whatever the side limit. */
  lemma SequenceAccepted(t: string, reader: SideReader, counted: int)
    requires Classify(t).SeqTok? && SeqRange(Classify(t).first, Classify(t).last).Some?
    ensures TokenDie(t, reader, None, counted).Pass?
  {
  }

  /** A `dA-dB` token does not go through the side limit. */
  lemma SequencesUncapped()
    ensures TokenDie("d4-d20", SideReader(Some(6)), None, 0).Pass?
  {
    var t := "d4-d20";
    assert t == ['d'] + "4" + "-" + ['d'] + "20";
    RenderSeq('d', "4", 'd', "20");
    WholeSequence();
    SequenceAccepted(t, SideReader(Some(6)), 0);
  }

  // ---------------------------------------------------------------------------
  // `from_string` as written: a loop over the tokens adding dice

  /** The loop body for a constant token `N`. */
  method ConstToken(die: Die, counter: DiceCounter, reader: SideReader, v: string) returns (r: Checked<Die>)
    requires die.Valid() && IsDigits(v)
    ensures var want := ConstDie(reader, v, counter.numDice);
      (r.Fail? <==> want.Fail?) && (r.Fail? ==> r.error == want.error)
    ensures var want := ConstDie(reader, v, counter.numDice);
      r.Pass? ==> fresh(r.value) && r.value.Valid() && r.value.sides == Convolve(die.sides, want.value.weights)
  {
    var n := reader.Read(v);
    if n.Fail? {
      return Fail(n.error);
    }
    var c := Die.Const(n.value);
    var sum := die.Add(c);
    return Pass(sum);
  }

  /** The loop body for a single die `dN`: count first, then read the sides. */
  method SingleToken(die: Die, counter: DiceCounter, reader: SideReader, s: string) returns (r: Checked<Die>)
    requires die.Valid() && IsDigits(s)
    modifies counter
    ensures var want := SingleDie(reader, counter.maxDice, s, old(counter.numDice));
      (r.Fail? <==> want.Fail?) && (r.Fail? ==> r.error == want.error)
    ensures var want := SingleDie(reader, counter.maxDice, s, old(counter.numDice));
      r.Pass? ==>
        counter.numDice == want.value.dice && fresh(r.value) && r.value.Valid()
        && r.value.sides == Convolve(die.sides, want.value.weights)
  {
    var over := counter.Count(1);
    if over.Some? {
      return Fail(over.value);
    }
    var n := reader.Read(s);
    if n.Fail? {
      return Fail(n.error);
    }
    var made := Die.FromInt(n.value);
    var sum := die.Add(made.value);
    return Pass(sum);
  }

  /** The loop body for `MdN`: read the sides, then count the copies. */
  method MultiToken(die: Die, counter: DiceCounter, reader: SideReader, c: string, s: string)
    returns (r: Checked<Die>)
    requires die.Valid() && IsDigits(c) && IsDigits(s)
    modifies counter
    ensures var want := MultiDie(reader, counter.maxDice, c, s, old(counter.numDice));
      (r.Fail? <==> want.Fail?) && (r.Fail? ==> r.error == want.error)
    ensures var want := MultiDie(reader, counter.maxDice, c, s, old(counter.numDice));
      r.Pass? ==>
        counter.numDice == want.value.dice && fresh(r.value) && r.value.Valid()
        && r.value.sides == Convolve(die.sides, want.value.weights)
  {
    var copies := Value(c);
    var sides := reader.Read(s);
    if sides.Fail? {
      return Fail(sides.error);
    }
    var over := counter.Count(copies);
    if over.Some? {
      return Fail(over.value);
    }
    var made := Die.FromInt(sides.value);
    var dup := made.value.Duplicate(copies);
    var sum := die.Add(dup);
    return Pass(sum);
  }

  /** `[makedie(n) for n in _DIE_SEQ[start:stop+1]]` */
  method SeqDiceList(start: nat, stop: nat) returns (dice: seq<Die>)
    requires start <= stop < |DieSeq|
    ensures forall j :: 0 <= j < |dice| ==> fresh(dice[j]) && dice[j].Valid()
    ensures SidesList(dice) == SeqDice(start, stop)
  {
    dice := [];
    var k := start;
    while k < stop + 1
      invariant start <= k <= stop + 1
      invariant |dice| == k - start
      invariant forall j :: 0 <= j < |dice| ==> fresh(dice[j]) && dice[j].Valid()
      invariant SidesList(dice) == SeqDice(start, stop)[..k - start]
    {
      var made := Die.FromInt(DieSeq[k]);
      assert SidesList(dice + [made.value]) == SidesList(dice) + [Fair(DieSeq[k])];
      assert SeqDice(start, stop)[..k + 1 - start] == SeqDice(start, stop)[..k - start] + [Fair(DieSeq[k])];
      dice := dice + [made.value];
      k := k + 1;
    }
  }

  /** The loop body for `dA-dB`: look both up in `_DIE_SEQ`, count, and add
      the dice from A to B. */
  method SeqToken(die: Die, counter: DiceCounter, t: string, f: string, l: string) returns (r: Checked<Die>)
    requires die.Valid() && IsDigits(f) && IsDigits(l)
    modifies counter
    ensures var want := SeqDie(counter.maxDice, t, f, l, old(counter.numDice));
      (r.Fail? <==> want.Fail?) && (r.Fail? ==> r.error == want.error)
    ensures var want := SeqDie(counter.maxDice, t, f, l, old(counter.numDice));
      r.Pass? ==>
        counter.numDice == want.value.dice && fresh(r.value) && r.value.Valid()
        && r.value.sides == Convolve(die.sides, want.value.weights)
  {
    var start := IndexOf(DieSeq, Value(f));
    var stop := IndexOf(DieSeq, Value(l));
    if start.None? || stop.None? || start.value > stop.value {
      return Fail(InvalidSequence(t));
    }
    assert SeqRange(f, l) == Some((start.value, stop.value));
    var over := counter.Count(stop.value + 1 - start.value);
    if over.Some? {
      return Fail(over.value);
    }
    var dice := SeqDiceList(start.value, stop.value);
    var all := Die.SumOf(dice);
    var sum := die.Add(all);
    return Pass(sum);
  }

  /** One pass of the loop body: the regexes tried in order. */
  method Step(die: Die, counter: DiceCounter, reader: SideReader, rd: string) returns (r: Checked<Die>)
    requires die.Valid()
    modifies counter
    ensures var want := TokenDie(rd, reader, counter.maxDice, old(counter.numDice));
      (r.Fail? <==> want.Fail?) && (r.Fail? ==> r.error == want.error)
    ensures var want := TokenDie(rd, reader, counter.maxDice, old(counter.numDice));
      r.Pass? ==>
        counter.numDice == want.value.dice && fresh(r.value) && r.value.Valid()
        && r.value.sides == Convolve(die.sides, want.value.weights)
  {
    match Classify(rd) {
      case ConstTok(v) =>
        r := ConstToken(die, counter, reader, v);
      case SingleTok(_, s) =>
        r := SingleToken(die, counter, reader, s);
      case MultiTok(c, _, s) =>
        r := MultiToken(die, counter, reader, c, s);
      case SeqTok(_, f, _, l) =>
        r := SeqToken(die, counter, rd, f, l);
      case BadTok =>
        r := Fail(InvalidDie(rd));
    }
  }

  lemma ParseStep(toks: seq<string>, i: nat, reader: SideReader, maxDice: Option<int>)
    requires i < |toks| && Parse(toks[..i], reader, maxDice).Pass?
    ensures var prev := Parse(toks[..i], reader, maxDice).value;
      var step := TokenDie(toks[i], reader, maxDice, prev.dice);
      && (step.Fail? ==> Parse(toks[..i + 1], reader, maxDice) == Fail(step.error))
      && (step.Pass? ==> Parse(toks[..i + 1], reader, maxDice) == Pass(Contribution(step.value.dice, Convolve(prev.weights, step.value.weights))))
  {
    assert toks[..i + 1][..i] == toks[..i] && toks[..i + 1][i] == toks[i];
  }

  /** The loop state of `from_string` after its first i tokens: the running
      die and the dice counted so far are those the parse of that prefix gives. */
  ghost predicate Tracks(toks: seq<string>, i: nat, reader: SideReader, maxDice: Option<int>, die: Die, counter: DiceCounter)
    reads die, counter
  {
    && i <= |toks|
    && Parse(toks[..i], reader, maxDice).Pass?
    && counter.maxDice == maxDice
    && counter.numDice == Parse(toks[..i], reader, maxDice).value.dice
    && die.Valid() && die.sides == Parse(toks[..i], reader, maxDice).value.weights
  }

  /** One pass of the loop of `from_string`, on token i. */
  method Advance(toks: seq<string>, i: nat, reader: SideReader, maxDice: Option<int>, die: Die, counter: DiceCounter)
      returns (r: Checked<Die>)
    requires i < |toks| && Tracks(toks, i, reader, maxDice, die, counter)
    modifies counter
    ensures r.Fail? ==> Parse(toks, reader, maxDice) == Fail(r.error)
    ensures r.Pass? ==> fresh(r.value) && Tracks(toks, i + 1, reader, maxDice, r.value, counter)
  {
    ParseStep(toks, i, reader, maxDice);
    r := Step(die, counter, reader, toks[i]);
    if r.Fail? {
      ParseFailure(toks, i + 1, reader, maxDice);
    }
  }

  /** Once every token is read, the loop state is the parse of the whole list. */
  lemma TracksWhole(toks: seq<string>, reader: SideReader, maxDice: Option<int>, die: Die, counter: DiceCounter)
    requires Tracks(toks, |toks|, reader, maxDice, die, counter)
    ensures Parse(toks, reader, maxDice).Pass?
    ensures die.Valid() && die.sides == Parse(toks, reader, maxDice).value.weights
  {
    assert toks[..|toks|] == toks;
  }

  /** The loop of `from_string` over its tokens, starting from `const(0)`. */
  method ParseTokens(toks: seq<string>, reader: SideReader, maxDice: Option<int>) returns (r: Checked<Die>)
    ensures r.Fail? <==> Parse(toks, reader, maxDice).Fail?
    ensures r.Fail? ==> r.error == Parse(toks, reader, maxDice).error
    ensures r.Pass? ==>
      fresh(r.value) && r.value.Valid() && r.value.sides == Parse(toks, reader, maxDice).value.weights
  {
    var counter := new DiceCounter(maxDice);
    var die := Die.Const(0);
    var i := 0;
    while i < |toks|
      invariant fresh(counter) && fresh(die) && Tracks(toks, i, reader, maxDice, die, counter)
    {
      var step := Advance(toks, i, reader, maxDice, die, counter);
      if step.Fail? {
        return Fail(step.error);
      }
      die := step.value;
      i := i + 1;
    }
    TracksWhole(toks, reader, maxDice, die, counter);
    return Pass(die);
  }

  /** `from_string(Die, raw, max_sides, max_dice)`. */
  method FromString(raw: string, maxSides: Option<int>, maxDice: Option<int>) returns (r: Outcome<Die>)
    ensures r.NoDice? <==> Described(raw, maxSides, maxDice).NoDice?
    ensures r.Failed? <==> Described(raw, maxSides, maxDice).Failed?
    ensures r.Failed? ==> r.error == Described(raw, maxSides, maxDice).error
    ensures r.Parsed? ==>
      fresh(r.value) && r.value.Valid() && r.value.sides == Described(raw, maxSides, maxDice).value
  {
    var rawdice := Words(raw);
    if |rawdice| == 0 {
      return NoDice;
    }
    var parsed := ParseTokens(rawdice, SideReader(maxSides), maxDice);
    match parsed {
      case Fail(e) => r := Failed(e);
      case Pass(die) => r := Parsed(die);
    }
  }
}
