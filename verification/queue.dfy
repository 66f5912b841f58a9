/** `AbstractQueue`: a stable priority queue. Each item is stored as the
    entry (priority, counter, item) where the counter grows by one for every
    entry made, so the least entry is the item of least priority that was
    inserted first, and two items are never compared with each other. The
    heap is modelled by the sequence of its entries in pop order. */
module StableQueue {
  import opened Wrappers

  datatype Entry<T> = Entry(priority: int, count: nat, item: T)

  /** Python's tuple order on (priority, count, item); the counts of two
      entries of one queue always differ, so the items are never reached. */
  predicate KeyLt<T>(a: Entry<T>, b: Entry<T>)
  {
    a.priority < b.priority || (a.priority == b.priority && a.count < b.count)
  }

  predicate StrictlySorted<T>(s: seq<T>, lt: (T, T) -> bool)
  {
    forall i, j :: 0 <= i < j < |s| ==> lt(s[i], s[j])
  }

  /** The entries in pop order. */
  predicate Ordered<T>(pq: seq<Entry<T>>)
  {
    forall i, j :: 0 <= i < j < |pq| ==> KeyLt(pq[i], pq[j])
  }

  function Items<T>(pq: seq<Entry<T>>): (r: seq<T>)
    ensures |r| == |pq| && forall i :: 0 <= i < |pq| ==> r[i] == pq[i].item
  {
    if |pq| == 0 then [] else [pq[0].item] + Items(pq[1..])
  }

  /** What `heappush` leaves behind, in pop order. */
  function Insert<T>(pq: seq<Entry<T>>, e: Entry<T>): (r: seq<Entry<T>>)
    requires Ordered(pq)
    requires forall i :: 0 <= i < |pq| ==> pq[i].count != e.count
    ensures |r| == |pq| + 1 && Ordered(r)
    ensures multiset(r) == multiset(pq) + multiset{e}
  {
    if |pq| == 0 || KeyLt(e, pq[0]) then
      InsertFront(pq, e);
      [e] + pq
    else
      var rest := Insert(pq[1..], e);
      InsertBehind(pq, e, rest);
      [pq[0]] + rest
  }

  lemma InsertFront<T>(pq: seq<Entry<T>>, e: Entry<T>)
    requires Ordered(pq) && (|pq| == 0 || KeyLt(e, pq[0]))
    ensures Ordered([e] + pq)
  {
    forall j | 0 < j < |pq| ensures KeyLt(e, pq[j]) {
      assert KeyLt(pq[0], pq[j]);
    }
  }

  lemma InsertBehind<T>(pq: seq<Entry<T>>, e: Entry<T>, rest: seq<Entry<T>>)
    requires Ordered(pq) && |pq| > 0 && !KeyLt(e, pq[0]) && pq[0].count != e.count
    requires Ordered(rest) && multiset(rest) == multiset(pq[1..]) + multiset{e}
    ensures Ordered([pq[0]] + rest)
    ensures multiset([pq[0]] + rest) == multiset(pq) + multiset{e}
  {
    assert pq == [pq[0]] + pq[1..];
    forall j | 0 <= j < |rest| ensures KeyLt(pq[0], rest[j]) {
      assert rest[j] in multiset(rest);
      if rest[j] != e {
        assert rest[j] in multiset(pq[1..]);
        var k :| 0 <= k < |pq[1..]| && pq[1..][k] == rest[j];
        assert KeyLt(pq[0], pq[k + 1]);
      }
    }
  }

  /** Every entry of a sequence is one of its elements, or the inserted one. */
  lemma InsertMembers<T>(pq: seq<Entry<T>>, e: Entry<T>)
    requires Ordered(pq)
    requires forall i :: 0 <= i < |pq| ==> pq[i].count != e.count
    ensures forall i :: 0 <= i < |pq| + 1 ==> Insert(pq, e)[i] == e || Insert(pq, e)[i] in pq
  {
    var r := Insert(pq, e);
    forall i | 0 <= i < |r| ensures r[i] == e || r[i] in pq {
      assert r[i] in multiset(r);
    }
  }

  predicate Bounded<T>(pq: seq<Entry<T>>, bound: nat)
  {
    forall i :: 0 <= i < |pq| ==> pq[i].count < bound
  }

  predicate Consistent<T>(pq: seq<Entry<T>>, p: T -> int)
  {
    forall i :: 0 <= i < |pq| ==> pq[i].priority == p(pq[i].item)
  }

  /** Inserting keeps every entry's count below a bound and every entry's
      priority that of its item. */
  lemma InsertKeeps<T>(pq: seq<Entry<T>>, e: Entry<T>, bound: nat, p: T -> int)
    requires Ordered(pq)
    requires forall i :: 0 <= i < |pq| ==> pq[i].count != e.count
    ensures Bounded(pq, bound) && e.count < bound ==> Bounded(Insert(pq, e), bound)
    ensures Consistent(pq, p) && e.priority == p(e.item) ==> Consistent(Insert(pq, e), p)
  {
    InsertMembers(pq, e);
  }

  lemma TailKeeps<T>(pq: seq<Entry<T>>, bound: nat, p: T -> int)
    requires |pq| > 0 && Ordered(pq) && Bounded(pq, bound) && Consistent(pq, p)
    ensures Ordered(pq[1..]) && Bounded(pq[1..], bound) && Consistent(pq[1..], p)
    ensures forall i :: 0 <= i < |pq| - 1 ==> pq[1..][i].count < bound
  {
  }

  lemma {:induction false} InsertItems<T>(pq: seq<Entry<T>>, e: Entry<T>)
    requires Ordered(pq)
    requires forall i :: 0 <= i < |pq| ==> pq[i].count != e.count
    ensures multiset(Items(Insert(pq, e))) == multiset(Items(pq)) + multiset{e.item}
    decreases |pq|
  {
    if |pq| == 0 || KeyLt(e, pq[0]) {
      assert ([e] + pq)[1..] == pq;
    } else {
      var rest := Insert(pq[1..], e);
      InsertItems(pq[1..], e);
      assert ([pq[0]] + rest)[1..] == rest;
    }
  }

  /** `[self._entry(d) for d in data]`, the counter starting at `start`. */
  function Tagged<T>(p: T -> int, data: seq<T>, start: nat): (r: seq<Entry<T>>)
    ensures |r| == |data|
    ensures forall i :: 0 <= i < |data| ==> r[i] == Entry(p(data[i]), start + i, data[i])
  {
    seq(|data|, i requires 0 <= i < |data| => Entry(p(data[i]), start + i, data[i]))
  }

  /** The entries of an empty queue after pushing each of xs in order. */
  function Pushes<T>(p: T -> int, xs: seq<T>): (r: seq<Entry<T>>)
    ensures Ordered(r) && |r| == |xs|
    ensures forall i :: 0 <= i < |r| ==> r[i].count < |xs| && r[i].priority == p(r[i].item)
  {
    if |xs| == 0 then []
    else
      var n := |xs| - 1;
      var prev := Pushes(p, xs[..n]);
      var e := Entry(p(xs[n]), n, xs[n]);
      assert Bounded(prev, n) && Consistent(prev, p);
      InsertKeeps(prev, e, |xs|, p);
      Insert(prev, e)
  }

  /** Two sequences strictly sorted by the same asymmetric relation and
      holding the same elements are equal. */
  lemma {:induction false} SortedUnique<T>(s: seq<T>, t: seq<T>, lt: (T, T) -> bool)
    requires forall a, b :: !(lt(a, b) && lt(b, a))
    requires StrictlySorted(s, lt) && StrictlySorted(t, lt)
    requires multiset(s) == multiset(t)
    ensures s == t
    decreases |s|
  {
    if |s| == 0 {
      assert |multiset(t)| == 0;
    } else {
      assert |t| > 0 by {
        assert |multiset(t)| == |multiset(s)| == |s|;
      }
      HeadsAgree(s, t, lt);
      assert multiset(s[1..]) == multiset(t[1..]) by {
        assert s == [s[0]] + s[1..] && t == [t[0]] + t[1..];
        assert multiset(s) == multiset{s[0]} + multiset(s[1..]);
        assert multiset(t) == multiset{t[0]} + multiset(t[1..]);
        assert multiset(s[1..]) == multiset(s) - multiset{s[0]};
        assert multiset(t[1..]) == multiset(t) - multiset{t[0]};
      }
      assert StrictlySorted(s[1..], lt) by {
        forall i, j | 0 <= i < j < |s| - 1 ensures lt(s[1..][i], s[1..][j]) {
          assert lt(s[i + 1], s[j + 1]);
        }
      }
      assert StrictlySorted(t[1..], lt) by {
        forall i, j | 0 <= i < j < |t| - 1 ensures lt(t[1..][i], t[1..][j]) {
          assert lt(t[i + 1], t[j + 1]);
        }
      }
      SortedUnique(s[1..], t[1..], lt);
      assert s == [s[0]] + s[1..] && t == [t[0]] + t[1..];
    }
  }

  /** The least element of both sequences is the same. */
  lemma HeadsAgree<T>(s: seq<T>, t: seq<T>, lt: (T, T) -> bool)
    requires forall a, b :: !(lt(a, b) && lt(b, a))
    requires StrictlySorted(s, lt) && StrictlySorted(t, lt)
    requires multiset(s) == multiset(t) && |s| > 0 && |t| > 0
    ensures s[0] == t[0]
  {
    assert s[0] in multiset(t);
    var k :| 0 <= k < |t| && t[k] == s[0];
    assert t[0] in multiset(s);
    var m :| 0 <= m < |s| && s[m] == t[0];
  }

  /** The entries of a queue built from a list: whatever order heapify
      leaves them in, popping sees them as if each item had been pushed. */
  lemma {:induction false} TaggedArePushes<T>(p: T -> int, data: seq<T>)
    ensures multiset(Pushes(p, data)) == multiset(Tagged(p, data, 0))
  {
    if |data| > 0 {
      var n := |data| - 1;
      var e := Entry(p(data[n]), n, data[n]);
      assert multiset(Tagged(p, data, 0)) == multiset(Tagged(p, data[..n], 0)) + multiset{e} by {
        TaggedSnoc(p, data);
      }
      assert multiset(Pushes(p, data)) == multiset(Pushes(p, data[..n])) + multiset{e} by {
        assert Pushes(p, data) == Insert(Pushes(p, data[..n]), e);
      }
      TaggedArePushes(p, data[..n]);
    }
  }

  lemma TaggedSnoc<T>(p: T -> int, data: seq<T>)
    requires |data| > 0
    ensures Tagged(p, data, 0) == Tagged(p, data[..|data| - 1], 0) + [Entry(p(data[|data| - 1]), |data| - 1, data[|data| - 1])]
  {
  }

  /** A queue built from a list pops in the same order as one filled by
      pushing the list's items in order. */
  lemma BuiltIsPushed<T>(p: T -> int, data: seq<T>, pq: seq<Entry<T>>)
    requires Ordered(pq) && multiset(pq) == multiset(Tagged(p, data, 0))
    ensures pq == Pushes(p, data)
  {
    TaggedArePushes(p, data);
    SortedUnique(pq, Pushes(p, data), (a, b) => KeyLt(a, b));
  }

  predicate DistinctPriorities<T>(pq: seq<Entry<T>>)
  {
    forall i, j :: 0 <= i < j < |pq| ==> pq[i].priority != pq[j].priority
  }

  predicate DistinctBy<T>(p: T -> int, xs: seq<T>)
  {
    forall i, j :: 0 <= i < j < |xs| ==> p(xs[i]) != p(xs[j])
  }

  lemma {:induction false} PushesDistinct<T>(p: T -> int, xs: seq<T>)
    requires DistinctBy(p, xs)
    ensures DistinctPriorities(Pushes(p, xs))
    ensures forall i :: 0 <= i < |xs| ==> Pushes(p, xs)[i].item in xs
  {
    if |xs| > 0 {
      var n := |xs| - 1;
      var prev := Pushes(p, xs[..n]);
      var e := Entry(p(xs[n]), n, xs[n]);
      PushesDistinct(p, xs[..n]);
      var r := Pushes(p, xs);
      assert r == Insert(prev, e);
      InsertMembers(prev, e);
      forall i | 0 <= i < |r| ensures r[i] == e || exists k :: 0 <= k < n && r[i] == prev[k] && r[i].priority != e.priority {
        if r[i] != e {
          var k :| 0 <= k < n && prev[k] == r[i];
          var m :| 0 <= m < n && xs[..n][m] == prev[k].item;
        }
      }
      forall i, j | 0 <= i < j < |r| ensures r[i].priority != r[j].priority {
        assert KeyLt(r[i], r[j]);
        if r[i] != e && r[j] != e {
          var a :| 0 <= a < n && r[i] == prev[a];
          var b :| 0 <= b < n && r[j] == prev[b];
          assert a != b;
        }
      }
      forall i | 0 <= i < |r| ensures r[i].item in xs {
        if r[i] != e {
          var k :| 0 <= k < n && prev[k] == r[i];
          assert prev[k].item in xs[..n];
        }
      }
    }
  }

  /** Pushing items of distinct priorities in any order gives queues that
      pop the same items. */
  lemma PushOrderIrrelevant<T>(p: T -> int, xs: seq<T>, ys: seq<T>)
    requires DistinctBy(p, xs) && DistinctBy(p, ys) && multiset(xs) == multiset(ys)
    ensures Items(Pushes(p, xs)) == Items(Pushes(p, ys))
  {
    PushesDistinct(p, xs);
    PushesDistinct(p, ys);
    ItemsMultiset(p, xs);
    ItemsMultiset(p, ys);
    var lt := (a, b) => p(a) < p(b);
    ItemsSorted(p, Pushes(p, xs), lt);
    ItemsSorted(p, Pushes(p, ys), lt);
    SortedUnique(Items(Pushes(p, xs)), Items(Pushes(p, ys)), lt);
  }

  lemma ItemsSorted<T>(p: T -> int, pq: seq<Entry<T>>, lt: (T, T) -> bool)
    requires Ordered(pq) && DistinctPriorities(pq)
    requires forall i :: 0 <= i < |pq| ==> pq[i].priority == p(pq[i].item)
    requires forall a, b :: lt(a, b) == (p(a) < p(b))
    ensures StrictlySorted(Items(pq), lt)
  {
    var items := Items(pq);
    forall i, j | 0 <= i < j < |pq| ensures lt(items[i], items[j]) {
      assert KeyLt(pq[i], pq[j]) && pq[i].priority != pq[j].priority;
      assert p(items[i]) < p(items[j]);
    }
  }

  lemma {:induction false} ItemsMultiset<T>(p: T -> int, xs: seq<T>)
    ensures multiset(Items(Pushes(p, xs))) == multiset(xs)
  {
    if |xs| > 0 {
      var n := |xs| - 1;
      var prev := Pushes(p, xs[..n]);
      var e := Entry(p(xs[n]), n, xs[n]);
      assert multiset(Items(prev)) == multiset(xs[..n]) by {
        ItemsMultiset(p, xs[..n]);
      }
      PushItems(p, xs);
      LastOut(xs);
    }
  }

  lemma LastOut<T>(xs: seq<T>)
    requires |xs| > 0
    ensures multiset(xs) == multiset(xs[..|xs| - 1]) + multiset{xs[|xs| - 1]}
  {
    assert xs == xs[..|xs| - 1] + [xs[|xs| - 1]];
  }

  lemma PushItems<T>(p: T -> int, xs: seq<T>)
    requires |xs| > 0
    ensures multiset(Items(Pushes(p, xs))) == multiset(Items(Pushes(p, xs[..|xs| - 1]))) + multiset{xs[|xs| - 1]}
  {
    var n := |xs| - 1;
    InsertItems(Pushes(p, xs[..n]), Entry(p(xs[n]), n, xs[n]));
  }

  lemma SameItems<T>(s: seq<Entry<T>>, t: seq<Entry<T>>)
    ensures Items(s) == Items(t) <==> |s| == |t| && forall k :: 0 <= k < |s| ==> s[k].item == t[k].item
  {
    if |s| == |t| && forall k :: 0 <= k < |s| ==> s[k].item == t[k].item {
      assert forall k :: 0 <= k < |s| ==> Items(s)[k] == Items(t)[k];
    }
  }

  /** The least entry is the least priority, and among equal priorities
      the earliest made. */
  lemma HeadIsLeast<T>(pq: seq<Entry<T>>)
    requires Ordered(pq) && |pq| > 0
    ensures forall i :: 0 < i < |pq| ==> pq[0].priority <= pq[i].priority
    ensures forall i :: 0 < i < |pq| && pq[i].priority == pq[0].priority ==> pq[0].count < pq[i].count
  {
    forall i | 0 < i < |pq| ensures KeyLt(pq[0], pq[i]) {
    }
  }

  class Queue<T(==)> {
    /** The subclass's `priority(item)` */
    const priority: T -> int
    /** `_counter`: the next value `next(self._counter)` hands out */
    var counter: nat
    /** `_pq`, in pop order */
    var pq: seq<Entry<T>>

    ghost predicate Valid()
      reads this
    {
      Ordered(pq) && Bounded(pq, counter) && Consistent(pq, priority)
    }

    /** `AbstractQueue(data)`: one entry per item, then `heapify`. */
    constructor(priority: T -> int, data: seq<T>)
      ensures Valid() && this.priority == priority
      ensures counter == |data|
      ensures multiset(pq) == multiset(Tagged(priority, data, 0))
    {
      this.priority := priority;
      var entries := Tagged(priority, data, 0);
      var heap: seq<Entry<T>> := [];
      var i := 0;
      while i < |entries|
        invariant 0 <= i <= |entries|
        invariant Ordered(heap) && multiset(heap) == multiset(entries[..i])
        invariant Bounded(heap, i) && Consistent(heap, priority)
      {
        assert entries[..i + 1] == entries[..i] + [entries[i]];
        InsertKeeps(heap, entries[i], i + 1, priority);
        heap := Insert(heap, entries[i]);
        i := i + 1;
      }
      assert entries[..i] == entries;
      counter := |data|;
      pq := heap;
    }

    /** `_entry(item)`: the next counter value goes to this entry. */
    method NewEntry(item: T) returns (e: Entry<T>)
      modifies this
      ensures e == Entry(priority(item), old(counter), item)
      ensures counter == old(counter) + 1 && pq == old(pq)
    {
      e := Entry(priority(item), counter, item);
      counter := counter + 1;
    }

    /** `push(item)` */
    method Push(item: T)
      requires Valid()
      modifies this
      ensures Valid() && counter == old(counter) + 1
      ensures pq == Insert(old(pq), Entry(priority(item), old(counter), item))
      ensures |pq| == |old(pq)| + 1
    {
      var e := NewEntry(item);
      InsertKeeps(pq, e, counter, priority);
      pq := Insert(pq, e);
    }

    /** `pop()`: None stands for the IndexError of an empty queue. */
    method Pop() returns (r: Option<T>)
      requires Valid()
      modifies this
      ensures Valid() && counter == old(counter)
      ensures |old(pq)| == 0 ==> r == None && pq == old(pq)
      ensures |old(pq)| > 0 ==> r == Some(old(pq)[0].item) && pq == old(pq)[1..]
      ensures r.Some? ==> forall e <- old(pq) :: priority(r.value) <= e.priority
    {
      if |pq| == 0 {
        return None;
      }
      HeadIsLeast(pq);
      TailKeeps(pq, counter, priority);
      r := Some(pq[0].item);
      pq := pq[1..];
    }

    /** `pushpop(item)`: the new entry comes straight back when the queue is
        empty or its priority is below the least one; on a tie the older
        entry wins. */
    method PushPop(item: T) returns (r: T)
      requires Valid()
      modifies this
      ensures Valid() && counter == old(counter) + 1 && |pq| == |old(pq)|
      ensures |old(pq)| == 0 || priority(item) < old(pq)[0].priority ==> r == item && pq == old(pq)
      ensures |old(pq)| > 0 && priority(item) >= old(pq)[0].priority ==>
        r == old(pq)[0].item && pq == Insert(old(pq)[1..], Entry(priority(item), old(counter), item))
    {
      var e := NewEntry(item);
      if |pq| > 0 && KeyLt(pq[0], e) {
        TailKeeps(pq, counter, priority);
        InsertKeeps(pq[1..], e, counter, priority);
        r := pq[0].item;
        pq := Insert(pq[1..], e);
      } else {
        r := item;
      }
    }

    /** `replace(item)`: the least entry leaves before the new one goes in,
        even when the new one is smaller. The counter moves on even for an
        empty queue, which raises IndexError (None). */
    method Replace(item: T) returns (r: Option<T>)
      requires Valid()
      modifies this
      ensures Valid() && counter == old(counter) + 1 && |pq| == |old(pq)|
      ensures |old(pq)| == 0 ==> r == None && pq == old(pq)
      ensures |old(pq)| > 0 ==>
        r == Some(old(pq)[0].item) && pq == Insert(old(pq)[1..], Entry(priority(item), old(counter), item))
    {
      var e := NewEntry(item);
      if |pq| == 0 {
        return None;
      }
      TailKeeps(pq, counter, priority);
      InsertKeeps(pq[1..], e, counter, priority);
      r := Some(pq[0].item);
      pq := Insert(pq[1..], e);
    }

    /** `entries()` */
    function Entries(): nat
      reads this
    {
      |pq|
    }

    /** `self == other`: same size, and popping copies of both heaps gives
        the same items one by one. */
    method Equals(other: Queue<T>) returns (r: bool)
      requires Valid() && other.Valid()
      ensures r <==> Items(pq) == Items(other.pq)
    {
      var a := pq;
      var b := other.pq;
      if |a| != |b| {
        return false;
      }
      var i := 0;
      while i < |pq|
        invariant 0 <= i <= |pq| == |other.pq|
        invariant a == pq[i..] && b == other.pq[i..]
        invariant forall k :: 0 <= k < i ==> pq[k].item == other.pq[k].item
      {
        var x := a[0];
        var y := b[0];
        a := a[1..];
        b := b[1..];
        if x.item != y.item {
          SameItems(pq, other.pq);
          return false;
        }
        i := i + 1;
      }
      SameItems(pq, other.pq);
      r := true;
    }
  }
}
