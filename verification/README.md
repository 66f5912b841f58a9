# Dice probabilities, a stable priority queue and a form manager, in Dafny

This project models three small parts of a dice-probability web application.

**The dice engine** (`nspdice_probability/die.py`):
- A `Die` is a list of weights indexed by outcome. Weights are exact `real`s here, so the laws that hold only within rounding in the original are theorems.
- The engine builds a fair n-sided die, a constant, or a normalised die from a weight list.
- It adds two dice (discrete convolution), with the accumulation loop as written.
- It duplicates a die n times.
- It caches the survival ("reach") table.
- It computes the chances of winning and of tying against another die.
- It rolls by inverse CDF from a caller-supplied number in [0, 1).
- `from_string` splits a text on whitespace into the tokens `N`, `dN`, `MdN` and `dA-dB`. It adds their dice up, starting from the constant 0. A dice counter caps the number of dice and a side reader caps the number of sides.

**The stable priority queue** (`dice_probability/queue.py`):
- Every entry is keyed by its priority and an insertion counter, so equal priorities come out first-in first-out.
- The heap is modelled by its abstract state: the entries sorted by key. Its pop order is the sorted order.
- `push`, `pop`, `pushpop`, `replace` and `entries` are methods of a class holding the counter and that sequence. So are the constructor (heapify) and `__eq__` (which pops copies in a loop).

**The form manager** (`nspdice_probability/formmanager.py`):
- It reads request keys `<prefix><id>-<field>` back into a sorted list of distinct ids.
- It makes one bound form per id, subject to a `max_forms` cap and the form's `keep()`.
- It then makes `extra` unbound forms, numbered from one past the last id kept.
- A form is an opaque value: its prefix and whether it is bound. `keep()` and `is_valid()` are predicates given with the manager.

Modules:
- `Wrappers`: the `Option` type shared by the other modules, standing for Python's `None` or a value.
- `Sums`: finite sums of `int -> real`, with splitting, scaling, reindexing, telescoping and the exchange of a triangular double sum.
- `Distribution`: the weight lists and their algebra: normalisation, convolution (commutative, associative, unit `[1.0]`, sum law), n-fold duplication, survival table, win/tie probabilities and the law that they add up to one.
- `Decimal`: `str.isdigit()`, `int()` and `str()` on ASCII decimal digits, with the round trips between them.
- `Dice`: the `Die` class with its loops as written, and the trailing-zero loop of the constructor as written.
- `Notation`: `str.split()`, the four token regexes, `SideReader`, `DiceCounter`, what a token list denotes, and `from_string` as a loop proved against that denotation.
- `StableQueue`: the queue.
- `Forms`: the form manager.

## Model

| member | source | states |
|---|---|---|
| Distribution.FairIsDie | nspdice_probability/die.py:54-58 | `Die(n)` for n > 0 has n+1 weights, 0 at index 0 and 1/n at indices 1..n, and is a die (non-negative, sums to 1, positive last weight); `Die(0)` is `[1.0]` |
| Distribution.ConstIsDie | nspdice_probability/die.py:64-72 | `const(v)` normalises `[0.0]*v + [1.0]` to itself: v+1 weights, 1 at index v, 0 below; for v <= 0 it is `[1.0]` |
| Distribution.Normalize | nspdice_probability/die.py:34-53 | the intended list constructor: ValueError exactly when the list is non-empty and sums to 0 or has a negative weight; the empty list gives `[1.0]`; otherwise a die whose weights are the inputs divided by their total, trailing zeros removed, and the length kept when the last weight is positive |
| Distribution.NormalizeDie | nspdice_probability/die.py:42-53 | normalising a die gives it back unchanged |
| Distribution.Convolve | nspdice_probability/die.py:82 | `(a+b).max_side() == a.max_side() + b.max_side()` |
| Distribution.AtConvolve | nspdice_probability/die.py:84-88 | weight k of a+b is the sum over i+j == k of `a[i]*b[j]` |
| Distribution.ConvolveCommutes | nspdice_probability/die.py:74-90 | `a + b == b + a` exactly |
| Distribution.ConvolveAssociates | nspdice_probability/die.py:74-90 | `(a + b) + c == a + (b + c)` exactly |
| Distribution.ConvolveIdentity | nspdice_probability/die.py:38 | adding `const(0)` on either side leaves a die unchanged |
| Distribution.ConvolveSum | nspdice_probability/die.py:84-88 | the weights of a+b sum to the product of the two sums |
| Distribution.ConvolveIsDie | nspdice_probability/die.py:74-90 | the sum of two dice is a die, so the division by the total in `Die(sides)` changes nothing |
| Distribution.NormalizeConvolution | nspdice_probability/die.py:90 | `Die(sides)` at the end of `__add__` returns the convolution unchanged |
| Distribution.SumDice | nspdice_probability/die.py:37-40 | `reduce(operator.add, dice, const(0))` over dice is a die whose max side is the sum of theirs |
| Distribution.DupIsDie | nspdice_probability/die.py:108-110 | `duplicate(n)` of a die is a die |
| Distribution.DupIsSumOfCopies | nspdice_probability/die.py:108-110 | `duplicate(n)` is `const(0)` plus n copies added left to right |
| Distribution.DupBase | nspdice_probability/die.py:108-110 | `duplicate(n)` with n <= 0 is `[1.0]`; `duplicate(1)` is the die itself |
| Distribution.DupPeel | nspdice_probability/die.py:108-110 | `duplicate(k) == d + duplicate(k-1)` |
| Distribution.DupAdd | nspdice_probability/die.py:108-110 | `duplicate(m+n) == duplicate(m) + duplicate(n)` |
| Distribution.DupMaxSide | nspdice_probability/die.py:92-93 | the max side of `duplicate(n)` is n times that of the die |
| Distribution.DupDistributes | nspdice_probability/die.py:108-110 | `(a+b).duplicate(n) == a.duplicate(n) + b.duplicate(n)` |
| Distribution.ConvolveInterchange | nspdice_probability/die.py:74-90 | `(p+q)+(a+b) == (p+a)+(q+b)` |
| Distribution.ReachSteps | nspdice_probability/die.py:119-125 | `reach[0] == 1` and `reach[k+1] == reach[k] - w[k]` |
| Distribution.ReachIsSurvival | nspdice_probability/die.py:116-130 | `reach[k]` is the sum of the weights from k up; it is non-increasing, in (0, 1], and ends at the last weight |
| Distribution.EqSymmetric | nspdice_probability/die.py:140-143 | `a.probability_eq(b) == b.probability_eq(a)` |
| Distribution.VsExtended | nspdice_probability/die.py:137-138 | the zipped (shorter) sum of `probability_vs` equals the same sum over any longer range |
| Distribution.WinLoseTie | nspdice_probability/die.py:132-143 | `a.vs(b) + b.vs(a) + a.eq(b) == 1` for any two dice |
| Distribution.DuelTelescopes | nspdice_probability/die.py:132-143 | the per-outcome win, lose and tie terms telescope to `Sum(a) * Sum(b)` |
| Dice.TrailingCases | nspdice_probability/die.py:49-53 | how many trailing zeros the intended trimming removes: none exactly when the last weight is positive, two or more exactly when the last two are not |
| Dice.TrimAsWritten | nspdice_probability/die.py:49-53 | the trailing-zero loop as written agrees with the intended trimming when at most one weight is trailing, and raises IndexError when two or more are |
| Dice.NormalizeAsWritten | nspdice_probability/die.py:42-53 | the list constructor as written: the same errors as the intended one; the same die when at most one zero trails; IndexError otherwise |
| Dice.TwoTrailingZeros | nspdice_probability/die.py:49-53 | `[1.0, 0.0, 0.0]` has two trailing zeros, and its intended die is `[1.0]` |
| Dice.Accumulate | nspdice_probability/die.py:82-88 | the accumulation loop over all outcome pairs into a zeroed array yields the convolution |
| Dice.Die.FromInt | nspdice_probability/die.py:54-60 | `Die(n)`: ValueError exactly for n < 0, otherwise a fresh die with the fair weights and no cached reach |
| Dice.Die.FromWeights | nspdice_probability/die.py:34-53 | `Die(list_of_weights)` as written: the intended die or its error, except IndexError when two or more zeros trail |
| Dice.Die.Const | nspdice_probability/die.py:64-72 | `Die.const(v)` is a fresh die with the constant weights |
| Dice.Die.Add | nspdice_probability/die.py:74-90 | `self + other` is a fresh die whose weights are the convolution |
| Dice.Die.SumOf | nspdice_probability/die.py:37-40 | `Die(list_of_dice)` folds `+` from `const(0)` and gives the sum of the dice |
| Dice.Die.Create | nspdice_probability/die.py:22-62 | `Die(arg)` dispatches on the argument: an int, a weight list, a list of dice; a die argument raises TypeError because line 34 is an `if`, not an `elif` |
| Dice.Die.Duplicate | nspdice_probability/die.py:108-110 | `duplicate(n)` is a fresh die equal to n-fold duplication (`[1.0]` for n <= 0) |
| Dice.Die.ComputeReach | nspdice_probability/die.py:116-125 | fills the cache with the survival table, and leaves an already filled cache alone |
| Dice.Die.ProbabilityReach | nspdice_probability/die.py:127-130 | returns the survival table; a second call returns the cached table |
| Dice.Die.ProbabilityVs | nspdice_probability/die.py:132-138 | the chance of rolling strictly higher than the opponent: the zipped sum of `opponent.w[k] * reach[k+1]` |
| Dice.Die.ProbabilityEq | nspdice_probability/die.py:140-143 | the chance of a tie is the same whichever die is asked, and for two dice it is exactly what is left after either die wins: `1 - a.vs(b) - b.vs(a)` |
| Dice.Die.Roll | nspdice_probability/die.py:145-154 | ValueError exactly when rnd is outside [0, 1); otherwise the least outcome whose cumulative weight exceeds rnd, which always has positive weight |
| Decimal.ValueOfDecimal | nspdice_probability/formmanager.py:13 | `int(str(n)) == n` |
| Decimal.DecimalOfValue | nspdice_probability/formmanager.py:13 | `str(int(s)) == s` for a digit string without a leading zero |
| Decimal.LeadingZero | nspdice_probability/die.py:188 | `int("0" + s) == int(s)` |
| Notation.WordsBlank | nspdice_probability/die.py:212-214 | `raw.split()` is empty exactly when the text is all whitespace |
| Notation.WordsOfUnwords | nspdice_probability/die.py:212 | splitting words joined by single spaces gives them back |
| Notation.WordsAppend | nspdice_probability/die.py:212 | splitting `x + " " + y` gives the words of x, then those of y |
| Notation.ClassifyForms | nspdice_probability/die.py:193-196 | each token kind is chosen exactly when its regex matches |
| Notation.FormsDisjoint | nspdice_probability/die.py:193-196 | the four regexes do not overlap |
| Notation.ClassifyRender | nspdice_probability/die.py:193-196 | classifying a spelled-out token gives that token back |
| Notation.SideReader.Read | nspdice_probability/die.py:186-191 | `read(raw)` is `int(raw)`, rejected with "Max %d sides" exactly when above the limit |
| Notation.ReadDecimal | nspdice_probability/die.py:186-191 | reading n spelled with any number of leading zeros gives n or the side-limit error |
| Notation.DiceCounter.Count | nspdice_probability/die.py:168-172 | `count(dice)` adds to the running count, and fails with "Only %d dice" exactly when the count is then over the limit |
| Notation.IndexOf | nspdice_probability/die.py:252-253 | `list.index(x)`: the first position of x, or ValueError exactly when x is absent |
| Notation.SeqRange | nspdice_probability/die.py:251-257 | A and B name positions in `_DIE_SEQ` in order, or the sequence is invalid |
| Notation.SeqDice | nspdice_probability/die.py:261 | the dice from A to B: `stop+1-start` fair dice with the sizes of `_DIE_SEQ[start:stop+1]` |
| Notation.SingleDie | nspdice_probability/die.py:231-235 | `dN` counts one die, then reads the sides |
| Notation.MultiDie | nspdice_probability/die.py:238-246 | `MdN` reads the sides, then counts M dice, then adds M copies |
| Notation.SeqDie | nspdice_probability/die.py:249-263 | `dA-dB` fails as an invalid sequence exactly when A or B is not in `_DIE_SEQ` or A comes after B; otherwise it counts `stop+1-start` dice |
| Notation.TokenDieCount | nspdice_probability/die.py:227-259 | a token that parses adds its count: 1 for `dN`, M for `MdN`, `stop+1-start` for `dA-dB`, 0 for a constant; a token that counts dice leaves the count within the limit |
| Notation.TokenDieBad | nspdice_probability/die.py:266 | a token matching no regex is an invalid die |
| Notation.TokenDieSequence | nspdice_probability/die.py:251-257 | only a `dA-dB` token with a bad range is an invalid sequence, and the error names the token |
| Notation.DescribedBlank | nspdice_probability/die.py:212-214 | blank input describes no dice |
| Notation.ParseFailure | nspdice_probability/die.py:222-266 | the first error ends the loop and is the error of the whole text |
| Notation.ParseDiceCap | nspdice_probability/die.py:168-172 | a non-negative dice limit only turns a parse into TooManyDice, exactly when the total count goes past it |
| Notation.ParseSideCap | nspdice_probability/die.py:186-191 | a side limit only turns a parse into an error, exactly when a constant or a side count goes past it |
| Notation.TokenDieShift | nspdice_probability/die.py:222-266 | without a dice limit, the die a token adds does not depend on the count before it |
| Notation.ParseAppend | nspdice_probability/die.py:222-266 | without a dice limit, tokens a then b describe the sum of what a and b describe |
| Notation.DescribedConcat | nspdice_probability/die.py:200-268 | without a dice limit, `"x y"` describes the sum of what x and y describe |
| Notation.MultiChecksSidesFirst | nspdice_probability/die.py:240-243 | in `3d8` with 6 sides and 2 dice allowed, the side limit fails first |
| Notation.SingleCountsFirst | nspdice_probability/die.py:233-234 | in `d8` with 6 sides and 0 dice allowed, the dice count fails first |
| Notation.ConstantsCapped | nspdice_probability/die.py:227 | a constant above the side limit is rejected |
| Notation.SequencesUncapped | nspdice_probability/die.py:249-263 | `d4-d20` is accepted under a 6-side limit |
| Notation.ConstToken | nspdice_probability/die.py:225-228 | the loop body for `N` adds `const(N)` or fails as the denotation says |
| Notation.SingleToken | nspdice_probability/die.py:231-235 | the loop body for `dN` updates the counter and the die as the denotation says |
| Notation.MultiToken | nspdice_probability/die.py:238-246 | the loop body for `MdN` updates the counter and the die as the denotation says |
| Notation.SeqDiceList | nspdice_probability/die.py:261 | the list comprehension of fresh fair dice for the sizes from A to B |
| Notation.SeqToken | nspdice_probability/die.py:249-263 | the loop body for `dA-dB` updates the counter and the die as the denotation says |
| Notation.Step | nspdice_probability/die.py:223-266 | one pass of the loop: the regexes tried in order, then the matching body |
| Notation.ParseTokens | nspdice_probability/die.py:216-268 | the loop over the tokens from `const(0)` fails exactly when the denotation does, with its error, and otherwise returns a fresh die with its weights |
| Notation.FromString | nspdice_probability/die.py:200-268 | `from_string`: None exactly for blank input, the parse error, or a fresh die with the weights the text describes |
| StableQueue.Insert | dice_probability/queue.py:28-29 | `heappush`: the key order is kept and exactly the new entry is added |
| StableQueue.InsertItems | dice_probability/queue.py:28-29 | a push adds the item to the queued items |
| StableQueue.HeadIsLeast | dice_probability/queue.py:31-32 | the head has the least priority, and the smallest counter among those with that priority |
| StableQueue.Pushes | dice_probability/queue.py:28-29 | pushing a list in order keeps the keys sorted, with counters below the list length |
| StableQueue.BuiltIsPushed | dice_probability/queue.py:5-11 | a queue built from a list holds exactly the entries that pushing the list's items in order gives |
| StableQueue.ItemsMultiset | dice_probability/queue.py:28-29 | pushing a list queues exactly its items |
| StableQueue.PushOrderIrrelevant | dice_probability/queue.py:13-23 | pushing the same items with distinct priorities in any order gives queues that pop the same items |
| StableQueue.SameItems | dice_probability/queue.py:13-23 | two queues pop the same items exactly when they have the same size and the same item at each position |
| StableQueue.SortedUnique | dice_probability/queue.py:11 | two strictly sorted lists with the same elements are equal, so heap order is fixed by the keys |
| StableQueue.Queue.constructor | dice_probability/queue.py:5-11 | the queue holds the list's items keyed by priority and counters 0..n-1, and the counter has moved past them |
| StableQueue.Queue.NewEntry | dice_probability/queue.py:25-26 | `_entry` takes the next counter value |
| StableQueue.Queue.Push | dice_probability/queue.py:28-29 | `push` inserts the new entry and grows the queue by one |
| StableQueue.Queue.Pop | dice_probability/queue.py:31-32 | `pop` removes and returns the head, whose priority is least; an empty queue is an error |
| StableQueue.Queue.PushPop | dice_probability/queue.py:34-35 | `pushpop(x)` returns x when the queue is empty or x's priority is below the head's; otherwise it returns the head (the older item on a tie) and queues x; the size is unchanged |
| StableQueue.Queue.Replace | dice_probability/queue.py:37-38 | `replace(x)` returns the head before queueing x, even when x is smaller; an empty queue is an error that still uses up a counter value |
| StableQueue.Queue.Equals | dice_probability/queue.py:13-23 | `__eq__` holds exactly when both queues pop the same sequence of items |
| Forms.ManagerPrefix | nspdice_probability/formmanager.py:50-52 | the prefix gets a `-` only when it is not empty |
| Forms.Strip | nspdice_probability/formmanager.py:63 | the first `len(prefix)` characters of a key are dropped |
| Forms.SplitDash | nspdice_probability/formmanager.py:65-66 | a key splits into two parts exactly when it holds one dash, and joins back |
| Forms.SplitJoin | nspdice_probability/formmanager.py:65-66 | splitting two dash-free parts joined by a dash gives them back |
| Forms.KeyRoundTrip | nspdice_probability/formmanager.py:63-68 | the key of a field of this manager's form with some id is read back as that id |
| Forms.ParseKeyRejects | nspdice_probability/formmanager.py:68 | a key whose name is not all digits, or whose field is not the form's, names no form |
| Forms.CollectedIds | nspdice_probability/formmanager.py:58-69 | the key loop keeps one copy of each id the keys name, and nothing else |
| Forms.CollectIds | nspdice_probability/formmanager.py:58-69 | the key loop as written |
| Forms.SortIds | nspdice_probability/formmanager.py:71 | `sorted(form_ids)` ascends and holds the same ids |
| Forms.IdsAscending | nspdice_probability/formmanager.py:58-71 | the ids are exactly those the keys name, once each, ascending |
| Forms.KeptProperties | nspdice_probability/formmanager.py:73-76 | the kept ids ascend, come from the ids, have forms that want to be kept, and do not exceed the cap |
| Forms.KeptUncapped | nspdice_probability/formmanager.py:73-76 | without a cap, exactly the ids whose forms want to be kept are kept |
| Forms.OffsetAboveKept | nspdice_probability/formmanager.py:73-76 | `extra_offset` is one more than the largest kept id, or 0 |
| Forms.ExtraCount | nspdice_probability/formmanager.py:78-80 | at most `extra` extra forms are made, all of them without a cap; the cap is never passed; fewer means the cap was reached |
| Forms.FormManager.AddForm | nspdice_probability/formmanager.py:11-19 | `_add_form` appends the bound form exactly when the cap allows one more and it wants to be kept, and returns whether it did |
| Forms.FormManager.AllowNewForm | nspdice_probability/formmanager.py:6-8 | `_allow_new_form()` always holds without a cap; when it holds, one more form keeps the manager within its cap (the `Within` invariant that `AddForm` and `AddFormExtra` preserve); when it fails, the cap has been reached |
| Forms.FormManager.AddFormExtra | nspdice_probability/formmanager.py:21-25 | `_add_form_extra` appends an unbound form exactly when the cap allows one more |
| Forms.FormManager.Forms | nspdice_probability/formmanager.py:27-28 | `forms()` is the base forms followed by the extra ones |
| Forms.FormManager.IsValid | nspdice_probability/formmanager.py:36-37 | `is_valid()` holds when there are no base forms, and otherwise exactly when every base form is valid |
| Forms.FormManager.constructor | nspdice_probability/formmanager.py:42-80 | the manager ends with one bound form per kept id, ascending, then the extra forms numbered from `extra_offset`, never more than the cap |
| Forms.FormManager.AddBaseForms | nspdice_probability/formmanager.py:73-76 | the loop over the ascending ids makes the kept forms and leaves `extra_offset` one past the last one kept |
| Forms.FormManager.AddExtraForms | nspdice_probability/formmanager.py:78-80 | the loop makes the extra forms numbered from the offset, as many as the cap allows |

## Left out

- `roll()` without an argument draws from `random.random()`. Only the path with an explicit `rnd` is modelled.
- `similar_to` and `__eq__` on dice compare weights rounded to 12 digits. Weights are exact reals here, and dice are compared with sequence equality.
- Floating-point rounding in normalisation, convolution and the survival table is not modelled. The laws hold exactly for reals.
- `LazyDie` and `DieQueue` are not part of this model. Their file is cut off, and they import a queue module that is not shown.
- TypeError for an argument that is not an integer, a list or a die (a string or a float, say) is not modelled: the model's parameters only take those values. `Die(some_die)` is a `DieArg` and its TypeError is modelled. The Python 2 split between `int` and `long` is a separate gap, stated in the next two lines.
- Dice.Die.FromInt and Dice.Die.Const: an integer above `sys.maxint` is a Python 2 `long`, and `Die(n)` and `Die.const(v)` raise TypeError for it, because `type(arg) is int` fails (die.py:54, 61-62, 69-70). The model has a single unbounded integer type and builds the die for every such n. `sys.maxint` depends on the platform, so no bound is modelled.
- Notation.FromString: for the same reason `from_string` raises TypeError when a constant or the side count of a `dN` or `MdN` token is above `sys.maxint`, unless `max_sides` rejects it first. `int(raw)` returns a `long` there (die.py:188), and `Die.const` or `Die(n)` refuses it. The model returns the die the text describes. Running out of memory for very large counts is not modelled either.
- Notation.FromString: the `makedie` parameter (die.py:200) is fixed to the `Die` class, which is what the one caller shown passes (dice_probability/views.py:48). Other die classes are not modelled.
- `max_side()` and `probability()` have no members of their own. They are `MaxSide` and the `sides` field.
- `StableQueue.Queue.Entries` has no contract of its own. How the size changes is stated by `Push`, `Pop`, `PushPop` and `Replace`.
- The binary-heap layout of `_pq` is not modelled. The queue is its sorted list of entries, which fixes the pop order. `heapify` is modelled as repeated insertion, and the heap functions as sorted insertion and removal.
- `pop` and `replace` on an empty queue raise IndexError. The model returns `None` instead, with the queue unchanged.
- `str.split()`, `str.isdigit()` and the `\d` class are modelled on ASCII only.
- The request data is modelled as the list of its keys. `data=None` and an empty dict both give no keys.
- The form class is modelled as three things: its field names, a `keep` predicate and an `is_valid` predicate on forms. Building a Django form is left out.
- `base_forms()` and `extra_forms()` are the `forms` and `extras` fields.
- `cleaned_data()` and `manager_factory` are not part of this model. They depend on Django form internals and on building a class at run time.
- Notation.ParseDiceCap: stated for a non-negative `max_dice` only. With a negative limit, a text of constants alone still parses, because constants are never counted.
- Behaviour the code has and a reader might not expect, followed here as written:
  - an empty weight list gives `[1.0]` (die.py:34-36);
  - `duplicate(n)` is `Die([self]*num)`, the `reduce` from `const(0)`, so it gives `[1.0]` for n <= 0 (die.py:37-40, 108-110);
  - in `from_string` the dice cap and the side cap are checked as each token is read, between the additions, so the first offending token decides the error (die.py:223-266);
  - `Die(0)` returns `[1.0]` (die.py:57-58), although a test expects ZeroDivisionError for it (nspdice_probability/die_test.py:7).
- `pool_from_string`, which dice_probability/views.py imports, is not part of this model.

## Findings

| source | as written | input that shows it | evidently intended | confidence | as-written member | corrected member |
|---|---|---|---|---|---|---|
| nspdice_probability/die.py:49-53 | the loop deletes `sides[-i]` with a growing `i` while the list shrinks | `Die([1.0, 0.0, 0.0])` has two trailing zeros; the loop deletes the last weight, then the first, then raises IndexError (`Dice.TwoTrailingZeros`) | remove all trailing zero weights, giving `[1.0]` | not executed | Dice.NormalizeAsWritten | Distribution.Normalize |
