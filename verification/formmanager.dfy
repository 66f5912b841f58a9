/** `BaseFormManager`: several copies of one form, numbered by an id that
    is read back from the request keys `<prefix><id>-<field>`. A form is an
    opaque value known by its prefix and by whether it is bound to the
    request data; `keep()` and `is_valid()` are predicates the concrete form
    supplies. */
module Forms {
  import opened Decimal
  import opened Wrappers

  /** A form the manager made: its prefix, and whether the request data was
      given to it (base forms) or not (extra forms). */
  datatype Form = Form(prefix: string, bound: bool)

  /** `self.form(..., prefix=self._prefix + str(form_id))` */
  function FormFor(prefix: string, id: nat, bound: bool): Form
  {
    Form(prefix + ToDecimal(id), bound)
  }

  /** The forms for a list of ids, in the list's order. */
  function FormsOf(prefix: string, ids: seq<nat>, bound: bool): (r: seq<Form>)
    ensures |r| == |ids|
    ensures forall i :: 0 <= i < |ids| ==> r[i] == FormFor(prefix, ids[i], bound)
  {
    if |ids| == 0 then []
    else FormsOf(prefix, ids[..|ids| - 1], bound) + [FormFor(prefix, ids[|ids| - 1], bound)]
  }

  /** The manager's prefix gets a `-` only when it is not empty. */
  function ManagerPrefix(prefix: string): (r: string)
    ensures |prefix| == 0 ==> r == ""
    ensures |prefix| > 0 ==> |r| == |prefix| + 1 && r[..|prefix|] == prefix && r[|prefix|] == '-'
  {
    if |prefix| > 0 then prefix + "-" else ""
  }

  /** The key a bound form's field is sent under: the form prefix, a dash
      and the field name. */
  function FieldKey(formPrefix: string, field: string): string
  {
    formPrefix + "-" + field
  }

  /** `fn[len(self._prefix):]`: the key's first n characters go, whatever
      they are; a key shorter than n leaves nothing. */
  function Strip(key: string, n: nat): (r: string)
    ensures n <= |key| ==> key == key[..n] + r
    ensures n > |key| ==> r == ""
  {
    if n <= |key| then key[n..] else ""
  }

  /** `s.count(c)` */
  function Count(s: string, c: char): nat
  {
    if |s| == 0 then 0 else (if s[0] == c then 1 else 0) + Count(s[1..], c)
  }

  lemma {:induction false} CountZero(s: string, c: char)
    ensures Count(s, c) == 0 <==> c !in s
  {
    if |s| > 0 {
      CountZero(s[1..], c);
      assert s == [s[0]] + s[1..];
    }
  }

  /** `fn.split('-')` for a key holding exactly one dash. */
  function SplitDash(s: string): (r: Option<(string, string)>)
    ensures r.Some? <==> Count(s, '-') == 1
    ensures r.Some? ==> s == r.value.0 + "-" + r.value.1 && '-' !in r.value.0 && '-' !in r.value.1
  {
    if |s| == 0 then None
    else if s[0] == '-' then
      CountZero(s[1..], '-');
      if '-' in s[1..] then None else Some(("", s[1..]))
    else
      match SplitDash(s[1..])
      case None => None
      case Some((a, b)) => Some(([s[0]] + a, b))
  }

  /** Joining two dash-free parts with a dash and splitting gives them back. */
  lemma {:induction false} SplitJoin(a: string, b: string)
    requires '-' !in a && '-' !in b
    ensures SplitDash(a + "-" + b) == Some((a, b))
    decreases |a|
  {
    var s := a + "-" + b;
    if |a| == 0 {
      assert s[1..] == b;
    } else {
      assert s[1..] == a[1..] + "-" + b;
      SplitJoin(a[1..], b);
      assert [s[0]] + a[1..] == a;
    }
  }

  /** The id a stripped key names: one dash, digits before it and a field
      name of the form after it. */
  function ParseKey(fn: string, fields: set<string>): (r: Option<nat>)
    ensures r.Some? ==> Count(fn, '-') == 1
  {
    match SplitDash(fn)
    case None => None
    case Some((name, field)) =>
      if field in fields && IsDigits(name) then Some(Value(name)) else None
  }

  /** The key under which a form of this manager sends a field is read back
      as that form's id. */
  lemma KeyRoundTrip(prefix: string, id: nat, field: string, fields: set<string>)
    requires field in fields && '-' !in field
    ensures ParseKey(Strip(FieldKey(FormFor(ManagerPrefix(prefix), id, true).prefix, field), |ManagerPrefix(prefix)|), fields) == Some(id)
  {
    var p := ManagerPrefix(prefix);
    var d := ToDecimal(id);
    var key := FieldKey(p + d, field);
    assert key == p + (d + "-" + field);
    assert Strip(key, |p|) == d + "-" + field;
    assert '-' !in d by {
      assert forall i :: 0 <= i < |d| ==> IsDigit(d[i]);
    }
    SplitJoin(d, field);
    ValueOfDecimal(id);
  }

  /** A key whose name part is not made of digits, or whose field is not
      one of the form's, names no form. */
  lemma ParseKeyRejects(name: string, field: string, fields: set<string>)
    requires '-' !in name && '-' !in field
    requires field !in fields || !IsDigits(name)
    ensures ParseKey(name + "-" + field, fields) == None
  {
    SplitJoin(name, field);
  }

  /** The id a key names once the manager's prefix length is stripped. */
  function KeyId(key: string, n: nat, fields: set<string>): Option<nat>
  {
    ParseKey(Strip(key, n), fields)
  }

  /** Every id some key of the request names. */
  function IdSet(keys: seq<string>, n: nat, fields: set<string>): set<nat>
  {
    if |keys| == 0 then {}
    else
      var k := KeyId(keys[|keys| - 1], n, fields);
      IdSet(keys[..|keys| - 1], n, fields) + (if k.Some? then {k.value} else {})
  }

  predicate Distinct(s: seq<nat>)
  {
    forall i, j :: 0 <= i < j < |s| ==> s[i] != s[j]
  }

  predicate Increasing(s: seq<nat>)
  {
    forall i, j :: 0 <= i < j < |s| ==> s[i] < s[j]
  }

  /** `form_ids` after the key loop: each new id appended once. */
  function Collected(keys: seq<string>, n: nat, fields: set<string>): seq<nat>
  {
    if |keys| == 0 then []
    else
      var ids := Collected(keys[..|keys| - 1], n, fields);
      var k := KeyId(keys[|keys| - 1], n, fields);
      if k.Some? && k.value !in ids then ids + [k.value] else ids
  }

  /** The key loop keeps one copy of every id the keys name, and no more. */
  lemma {:induction false} CollectedIds(keys: seq<string>, n: nat, fields: set<string>)
    ensures Distinct(Collected(keys, n, fields))
    ensures forall x :: x in Collected(keys, n, fields) <==> x in IdSet(keys, n, fields)
  {
    if |keys| > 0 {
      var m := |keys| - 1;
      CollectedIds(keys[..m], n, fields);
    }
  }

  /** Insertion into an ascending list. */
  function InsertAscending(x: nat, s: seq<nat>): (r: seq<nat>)
    requires Increasing(s) && x !in s
    ensures Increasing(r) && multiset(r) == multiset(s) + multiset{x}
  {
    if |s| == 0 || x < s[0] then
      [x] + s
    else
      var rest := InsertAscending(x, s[1..]);
      PrependIncreasing(s, x, rest);
      [s[0]] + rest
  }

  lemma PrependIncreasing(s: seq<nat>, x: nat, rest: seq<nat>)
    requires Increasing(s) && |s| > 0 && s[0] < x
    requires Increasing(rest) && multiset(rest) == multiset(s[1..]) + multiset{x}
    ensures Increasing([s[0]] + rest)
    ensures multiset([s[0]] + rest) == multiset(s) + multiset{x}
  {
    assert s == [s[0]] + s[1..];
    forall j | 0 <= j < |rest| ensures s[0] < rest[j] {
      assert rest[j] in multiset(rest);
      if rest[j] != x {
        assert rest[j] in s[1..];
        var k :| 0 <= k < |s[1..]| && s[1..][k] == rest[j];
        assert s[k + 1] == rest[j];
      }
    }
  }

  /** `sorted(form_ids)` for a list without repeats. */
  function SortIds(s: seq<nat>): (r: seq<nat>)
    requires Distinct(s)
    ensures Increasing(r) && multiset(r) == multiset(s)
  {
    if |s| == 0 then []
    else
      assert s == [s[0]] + s[1..];
      var rest := SortIds(s[1..]);
      assert s[0] !in multiset(s[1..]) by {
        forall j | 0 <= j < |s| - 1 ensures s[1..][j] != s[0] {
          assert s[j + 1] != s[0];
        }
      }
      InsertAscending(s[0], rest)
  }

  /** The ids the manager makes base forms for, ascending. */
  function Ids(keys: seq<string>, n: nat, fields: set<string>): (r: seq<nat>)
    ensures Increasing(r)
  {
    CollectedIds(keys, n, fields);
    SortIds(Collected(keys, n, fields))
  }

  /** The ids are exactly those the keys name, each once, in ascending order. */
  lemma IdsAscending(keys: seq<string>, n: nat, fields: set<string>)
    ensures Increasing(Ids(keys, n, fields))
    ensures forall x :: x in Ids(keys, n, fields) <==> x in IdSet(keys, n, fields)
  {
    CollectedIds(keys, n, fields);
    var c := Collected(keys, n, fields);
    assert forall x :: x in Ids(keys, n, fields) <==> x in multiset(c);
  }

  /** `max_forms == None or numforms < max_forms` */
  predicate Allows(cap: Option<int>, count: nat)
  {
    cap.None? || count < cap.value
  }

  /** The cap the manager never goes over. */
  predicate Within(cap: Option<int>, count: nat)
  {
    cap.None? || count == 0 || count <= cap.value
  }

  /** The ids `_add_form` appends a form for, in order: a form goes in while
      the cap allows one more and it wants to be kept. */
  function Kept(prefix: string, keep: Form -> bool, cap: Option<int>, ids: seq<nat>): seq<nat>
  {
    if |ids| == 0 then []
    else
      var kept := Kept(prefix, keep, cap, ids[..|ids| - 1]);
      var id := ids[|ids| - 1];
      if Allows(cap, |kept|) && keep(FormFor(prefix, id, true)) then kept + [id] else kept
  }

  /** The kept ids are some of the ids, in their order; each one's form is
      kept, and there are no more than the cap. */
  lemma {:induction false} KeptProperties(prefix: string, keep: Form -> bool, cap: Option<int>, ids: seq<nat>)
    requires Increasing(ids)
    ensures Increasing(Kept(prefix, keep, cap, ids))
    ensures forall x :: x in Kept(prefix, keep, cap, ids) ==> x in ids && keep(FormFor(prefix, x, true))
    ensures Within(cap, |Kept(prefix, keep, cap, ids)|)
  {
    if |ids| > 0 {
      var m := |ids| - 1;
      var front := ids[..m];
      assert Increasing(front);
      KeptProperties(prefix, keep, cap, front);
      var kept := Kept(prefix, keep, cap, front);
      forall k | 0 <= k < |kept| ensures kept[k] < ids[m] && kept[k] in ids {
        assert kept[k] in kept;
        var i :| 0 <= i < m && front[i] == kept[k];
        assert ids[i] == kept[k];
      }
      var id := ids[m];
      if Allows(cap, |kept|) && keep(FormFor(prefix, id, true)) {
        assert Kept(prefix, keep, cap, ids) == kept + [id];
        assert Increasing(kept + [id]);
      }
    }
  }

  /** Without a cap, exactly the ids whose forms want to be kept are kept. */
  lemma {:induction false} KeptUncapped(prefix: string, keep: Form -> bool, ids: seq<nat>)
    ensures forall x :: x in Kept(prefix, keep, None, ids) <==> x in ids && keep(FormFor(prefix, x, true))
  {
    if |ids| > 0 {
      var m := |ids| - 1;
      KeptUncapped(prefix, keep, ids[..m]);
      assert ids == ids[..m] + [ids[m]];
    }
  }

  /** `extra_offset`: one past the last id kept, 0 when none was. */
  function Offset(kept: seq<nat>): nat
  {
    if |kept| == 0 then 0 else kept[|kept| - 1] + 1
  }

  /** Of ascending kept ids, the offset is one more than the largest. */
  lemma OffsetAboveKept(kept: seq<nat>)
    requires Increasing(kept)
    ensures forall x :: x in kept ==> x < Offset(kept)
    ensures |kept| > 0 ==> Offset(kept) - 1 in kept && Offset(kept) > 0
  {
  }

  /** How many of `extra` extra forms fit after `base` base forms. */
  function ExtraCount(cap: Option<int>, base: nat, extra: int): (r: nat)
    ensures r <= (if extra < 0 then 0 else extra)
    ensures cap.None? ==> r == (if extra < 0 then 0 else extra)
    ensures Within(cap, base) ==> Within(cap, base + r)
    ensures cap.Some? && r < extra ==> base + r >= cap.value
  {
    if extra <= 0 then 0
    else if cap.None? then extra
    else
      var room := cap.value - base;
      if room <= 0 then 0 else if extra < room then extra else room
  }

  /** Ids `offset`, `offset + 1`, ... for the extra forms. */
  function ExtraIds(offset: nat, count: nat): (r: seq<nat>)
    ensures |r| == count && forall i :: 0 <= i < count ==> r[i] == offset + i
  {
    seq(count, i requires 0 <= i < count => offset + i)
  }

  class FormManager {
    /** `self.form().fields.keys()` */
    const fields: set<string>
    /** `extra`: how many extra forms to add */
    const extra: int
    /** `max_forms` */
    const maxForms: Option<int>
    /** The form's `keep()` on a form bound to this manager's data */
    const keep: Form -> bool
    /** The form's `is_valid()` */
    const valid: Form -> bool
    /** `_prefix` */
    const prefix: string
    /** `_forms` */
    var forms: seq<Form>
    /** `_forms_extra` */
    var extras: seq<Form>

    ghost predicate Valid()
      reads this
    {
      Within(maxForms, |forms| + |extras|)
    }

    /** `_allow_new_form()`: one more form stays within the cap, and a form
        is refused only once the cap is reached. */
    predicate AllowNewForm(): (b: bool)
      reads this
      ensures maxForms.None? ==> b
      ensures b ==> Within(maxForms, |forms| + |extras| + 1)
      ensures !b ==> maxForms.Some? && maxForms.value <= |forms| + |extras|
    {
      Allows(maxForms, |forms| + |extras|)
    }

    /** `_add_form(form_id)`: true exactly when the bound form was added. */
    method AddForm(id: nat) returns (added: bool)
      requires Valid()
      modifies this
      ensures Valid() && extras == old(extras)
      ensures added <==> old(AllowNewForm()) && keep(FormFor(prefix, id, true))
      ensures forms == old(forms) + (if added then [FormFor(prefix, id, true)] else [])
    {
      added := false;
      if AllowNewForm() {
        var form := FormFor(prefix, id, true);
        if keep(form) {
          forms := forms + [form];
          added := true;
        }
      }
    }

    /** `_add_form_extra(form_id)`: an unbound form, when the cap allows. */
    method AddFormExtra(id: nat)
      requires Valid()
      modifies this
      ensures Valid() && forms == old(forms)
      ensures extras == old(extras) + (if old(AllowNewForm()) then [FormFor(prefix, id, false)] else [])
    {
      if AllowNewForm() {
        extras := extras + [FormFor(prefix, id, false)];
      }
    }

    /** `forms()`: the base forms, then the extra ones. */
    function Forms(): (r: seq<Form>)
      reads this
      ensures |r| == |forms| + |extras|
      ensures r[..|forms|] == forms && r[|forms|..] == extras
    {
      forms + extras
    }

    /** `is_valid()`: every base form is valid; extras are not looked at. */
    predicate IsValid(): (b: bool)
      reads this
      ensures |forms| == 0 ==> b
      ensures !b ==> exists i :: 0 <= i < |forms| && !valid(forms[i])
      ensures b ==> forall f :: f in forms ==> valid(f)
    {
      forall i :: 0 <= i < |forms| ==> valid(forms[i])
    }

    /** `BaseFormManager(data, prefix)` with the class attributes `form`
        (through `fields`, `keep` and `valid`), `extra` and `max_forms`.
        `keys` are the request's keys; an absent or empty request has none. */
    constructor(fields: set<string>, extra: int, maxForms: Option<int>, keep: Form -> bool,
                valid: Form -> bool, keys: seq<string>, prefix: string)
      ensures this.fields == fields && this.extra == extra && this.maxForms == maxForms
      ensures this.keep == keep && this.valid == valid
      ensures this.prefix == ManagerPrefix(prefix)
      ensures Valid()
      ensures var kept := Kept(this.prefix, keep, maxForms, Ids(keys, |this.prefix|, fields));
        && forms == FormsOf(this.prefix, kept, true)
        && extras == FormsOf(this.prefix, ExtraIds(Offset(kept), ExtraCount(maxForms, |kept|, extra)), false)
    {
      this.fields := fields;
      this.extra := extra;
      this.maxForms := maxForms;
      this.keep := keep;
      this.valid := valid;
      this.prefix := ManagerPrefix(prefix);
      forms := [];
      extras := [];
      new;
      var collected := CollectIds(keys, |this.prefix|, fields);
      CollectedIds(keys, |this.prefix|, fields);
      var ids := SortIds(collected);
      var extraOffset := AddBaseForms(ids);
      AddExtraForms(Kept(this.prefix, keep, maxForms, ids), extraOffset);
    }

    /** The loop over the ascending ids: each one gets a bound form if the
        cap and `keep()` allow, and `extra_offset` follows the last one kept. */
    method AddBaseForms(ids: seq<nat>) returns (extraOffset: nat)
      requires Valid() && forms == [] && extras == []
      modifies this
      ensures Valid() && extras == []
      ensures forms == FormsOf(prefix, Kept(prefix, keep, maxForms, ids), true)
      ensures extraOffset == Offset(Kept(prefix, keep, maxForms, ids))
    {
      extraOffset := 0;
      var j := 0;
      while j < |ids|
        invariant 0 <= j <= |ids|
        invariant Valid() && extras == []
        invariant forms == FormsOf(prefix, Kept(prefix, keep, maxForms, ids[..j]), true)
        invariant extraOffset == Offset(Kept(prefix, keep, maxForms, ids[..j]))
      {
        KeptStep(prefix, keep, maxForms, ids, j, forms);
        var added := AddForm(ids[j]);
        if added {
          extraOffset := ids[j] + 1;
        }
        j := j + 1;
      }
      assert ids[..j] == ids;
    }

    /** The loop adding `extra` unbound forms numbered from `offset`, as
        long as the cap allows. */
    method AddExtraForms(kept: seq<nat>, offset: nat)
      requires Valid() && forms == FormsOf(prefix, kept, true) && extras == []
      modifies this
      ensures Valid() && forms == FormsOf(prefix, kept, true)
      ensures extras == FormsOf(prefix, ExtraIds(offset, ExtraCount(maxForms, |kept|, extra)), false)
    {
      var i := 0;
      while i < extra
        invariant 0 <= i <= (if extra < 0 then 0 else extra)
        invariant Valid() && forms == FormsOf(prefix, kept, true)
        invariant extras == FormsOf(prefix, ExtraIds(offset, ExtraCount(maxForms, |kept|, i)), false)
      {
        AddExtraStep(kept, offset, i);
        i := i + 1;
      }
    }

    /** One pass of the extra-forms loop. */
    method AddExtraStep(kept: seq<nat>, offset: nat, i: nat)
      requires Valid() && forms == FormsOf(prefix, kept, true)
      requires extras == FormsOf(prefix, ExtraIds(offset, ExtraCount(maxForms, |kept|, i)), false)
      modifies this
      ensures Valid() && forms == FormsOf(prefix, kept, true)
      ensures extras == FormsOf(prefix, ExtraIds(offset, ExtraCount(maxForms, |kept|, i + 1)), false)
    {
      ExtraStep(prefix, maxForms, |kept|, offset, i, extras);
      AddFormExtra(i + offset);
    }
  }

  /** Each step of the base-forms loop keeps the next id or not, and the
      offset follows the last id kept. */
  lemma KeptStep(prefix: string, keep: Form -> bool, cap: Option<int>, ids: seq<nat>, j: nat, forms: seq<Form>)
    requires j < |ids| && forms == FormsOf(prefix, Kept(prefix, keep, cap, ids[..j]), true)
    ensures var next := Kept(prefix, keep, cap, ids[..j + 1]);
      Allows(cap, |forms|) && keep(FormFor(prefix, ids[j], true)) ==>
        forms + [FormFor(prefix, ids[j], true)] == FormsOf(prefix, next, true) && Offset(next) == ids[j] + 1
    ensures var next := Kept(prefix, keep, cap, ids[..j + 1]);
      !(Allows(cap, |forms|) && keep(FormFor(prefix, ids[j], true))) ==>
        forms == FormsOf(prefix, next, true) && next == Kept(prefix, keep, cap, ids[..j])
  {
    assert ids[..j + 1][..j] == ids[..j];
    var kept := Kept(prefix, keep, cap, ids[..j]);
    if Allows(cap, |forms|) && keep(FormFor(prefix, ids[j], true)) {
      assert (kept + [ids[j]])[..|kept|] == kept;
    }
  }

  /** Each step of the extra-forms loop adds the next id, or nothing once
      the cap is reached. */
  lemma ExtraStep(prefix: string, cap: Option<int>, base: nat, offset: nat, i: nat, extras: seq<Form>)
    requires extras == FormsOf(prefix, ExtraIds(offset, ExtraCount(cap, base, i)), false)
    ensures Allows(cap, base + |extras|) ==>
      extras + [FormFor(prefix, i + offset, false)] == FormsOf(prefix, ExtraIds(offset, ExtraCount(cap, base, i + 1)), false)
    ensures !Allows(cap, base + |extras|) ==>
      extras == FormsOf(prefix, ExtraIds(offset, ExtraCount(cap, base, i + 1)), false)
  {
    var before := ExtraCount(cap, base, i);
    var after := ExtraCount(cap, base, i + 1);
    if Allows(cap, base + before) {
      assert before == i && after == i + 1;
      assert ExtraIds(offset, after)[..before] == ExtraIds(offset, before);
    }
  }

  /** The key loop of `__init__`. */
  method CollectIds(keys: seq<string>, n: nat, fields: set<string>) returns (ids: seq<nat>)
    ensures ids == Collected(keys, n, fields)
  {
    ids := [];
    var i := 0;
    while i < |keys|
      invariant 0 <= i <= |keys|
      invariant ids == Collected(keys[..i], n, fields)
    {
      assert keys[..i + 1][..i] == keys[..i];
      var fn := Strip(keys[i], n);
      var k := ParseKey(fn, fields);
      if k.Some? && k.value !in ids {
        ids := ids + [k.value];
      }
      i := i + 1;
    }
    assert keys[..i] == keys;
  }
}
