// The insertion-ordered map of src/util.rs: a vector of entries and a hash index into it.
module OrderedMap {
  import opened Wrappers

  // ---------------------------------------------------------------- association lists

  type Entries<K, V> = seq<(K, V)>

  ghost predicate Distinct<K, V>(es: Entries<K, V>) {
    forall i, j :: 0 <= i < j < |es| ==> es[i].0 != es[j].0
  }

  ghost predicate HasKey<K, V>(es: Entries<K, V>, key: K) {
    exists i :: 0 <= i < |es| && es[i].0 == key
  }

  // The value of a key, searched from the front.
  function Lookup<K(==), V>(es: Entries<K, V>, key: K): Option<V> {
    if es == [] then None
    else if es[0].0 == key then Some(es[0].1)
    else Lookup(es[1..], key)
  }

  // A known key keeps its place; a new one goes to the end.
  function Put<K(==), V>(es: Entries<K, V>, key: K, value: V): Entries<K, V> {
    if es == [] then [(key, value)]
    else if es[0].0 == key then [(key, value)] + es[1..]
    else [es[0]] + Put(es[1..], key, value)
  }

  function PutAll<K(==), V>(es: Entries<K, V>, more: Entries<K, V>): Entries<K, V>
    decreases |more|
  {
    if more == [] then es else PutAll(Put(es, more[0].0, more[0].1), more[1..])
  }

  function Without<K(==), V>(es: Entries<K, V>, key: K): Entries<K, V> {
    if es == [] then []
    else if es[0].0 == key then es[1..]
    else [es[0]] + Without(es[1..], key)
  }

  // The filter may change a value before it decides.
  type Keep<!K, !V> = (K, V) -> (bool, V)

  function Retained<K, V>(es: Entries<K, V>, f: Keep<K, V>): Entries<K, V> {
    if es == [] then []
    else
      var (keep, value) := f(es[0].0, es[0].1);
      (if keep then [(es[0].0, value)] else []) + Retained(es[1..], f)
  }

  type Order<!K, !V> = ((K, V), (K, V)) -> bool

  // A stable insertion: before the first entry that is not below the new one.
  function Placed<K, V>(e: (K, V), es: Entries<K, V>, leq: Order<K, V>): Entries<K, V> {
    if es == [] || leq(e, es[0]) then [e] + es else [es[0]] + Placed(e, es[1..], leq)
  }

  function Sorted<K, V>(es: Entries<K, V>, leq: Order<K, V>): Entries<K, V> {
    if es == [] then [] else Placed(es[0], Sorted(es[1..], leq), leq)
  }

  // ---------------------------------------------------------------- positions

  lemma {:induction false} LookupAt<K, V>(es: Entries<K, V>, i: nat)
    requires Distinct(es) && i < |es|
    ensures Lookup(es, es[i].0) == Some(es[i].1)
  {
    if i > 0 { LookupAt(es[1..], i - 1); }
  }

  lemma {:induction false} LookupNone<K, V>(es: Entries<K, V>, key: K)
    ensures Lookup(es, key).None? <==> !HasKey(es, key)
  {
    if es != [] {
      LookupNone(es[1..], key);
      assert HasKey(es[1..], key) ==> HasKey(es, key) by {
        if HasKey(es[1..], key) {
          var i :| 0 <= i < |es| - 1 && es[1..][i].0 == key;
          assert es[i + 1].0 == key;
        }
      }
      if HasKey(es, key) && es[0].0 != key {
        var i :| 0 <= i < |es| && es[i].0 == key;
        assert es[1..][i - 1].0 == key;
      }
    }
  }

  lemma {:induction false} PutAt<K, V>(es: Entries<K, V>, i: nat, value: V)
    requires Distinct(es) && i < |es|
    ensures Put(es, es[i].0, value) == es[i := (es[i].0, value)]
  {
    if i > 0 {
      var rest, e := es[1..], (es[i].0, value);
      PutAt(rest, i - 1, value);
      assert es[0].0 != es[i].0;
      assert es[i := e] == [es[0]] + rest[i - 1 := e];
    }
  }

  lemma {:induction false} PutNew<K, V>(es: Entries<K, V>, key: K, value: V)
    requires !HasKey(es, key)
    ensures Put(es, key, value) == es + [(key, value)]
  {
    if es != [] {
      assert es[0].0 != key;
      forall i | 0 <= i < |es| - 1 ensures es[1..][i].0 != key { assert es[i + 1].0 != key; }
      PutNew(es[1..], key, value);
    }
  }

  lemma {:induction false} WithoutAt<K, V>(es: Entries<K, V>, i: nat)
    requires Distinct(es) && i < |es|
    ensures Without(es, es[i].0) == es[..i] + es[i + 1..]
  {
    if i > 0 {
      WithoutAt(es[1..], i - 1);
      assert es[0].0 != es[i].0;
    }
  }

  lemma {:induction false} WithoutNone<K, V>(es: Entries<K, V>, key: K)
    requires !HasKey(es, key)
    ensures Without(es, key) == es
  {
    if es != [] {
      assert es[0].0 != key;
      forall i | 0 <= i < |es| - 1 ensures es[1..][i].0 != key { assert es[i + 1].0 != key; }
      WithoutNone(es[1..], key);
    }
  }

  // ---------------------------------------------------------------- laws of the lists

  lemma {:induction false} PutThenLookup<K, V>(es: Entries<K, V>, key: K, value: V, other: K)
    ensures Lookup(Put(es, key, value), other) == if other == key then Some(value) else Lookup(es, other)
  {
    if es != [] && es[0].0 != key { PutThenLookup(es[1..], key, value, other); }
  }

  lemma {:induction false} WithoutThenLookup<K, V>(es: Entries<K, V>, key: K, other: K)
    requires Distinct(es)
    ensures Lookup(Without(es, key), other) == if other == key then None else Lookup(es, other)
  {
    if es != [] {
      if es[0].0 == key {
        LookupNone(es[1..], key);
        forall i | 0 <= i < |es| - 1 ensures es[1..][i].0 != key { }
      } else {
        WithoutThenLookup(es[1..], key, other);
      }
    }
  }

  // Sorting rearranges the entries and nothing else.
  lemma {:induction false} SortedKeeps<K, V>(es: Entries<K, V>, leq: Order<K, V>)
    ensures multiset(Sorted(es, leq)) == multiset(es)
  {
    if es != [] {
      SortedKeeps(es[1..], leq);
      PlacedKeeps(es[0], Sorted(es[1..], leq), leq);
      assert es == [es[0]] + es[1..];
    }
  }

  lemma {:induction false} PlacedKeeps<K, V>(e: (K, V), es: Entries<K, V>, leq: Order<K, V>)
    ensures multiset(Placed(e, es, leq)) == multiset([e] + es)
  {
    if es != [] && !leq(e, es[0]) {
      PlacedKeeps(e, es[1..], leq);
      assert es == [es[0]] + es[1..];
    }
  }

  ghost predicate Ordered<K, V>(es: Entries<K, V>, leq: Order<K, V>) {
    forall i, j :: 0 <= i < j < |es| ==> leq(es[i], es[j])
  }

  ghost predicate TotalOrder<K(!new), V(!new)>(leq: Order<K, V>) {
    && (forall x, y :: leq(x, y) || leq(y, x))
    && (forall x, y, z :: leq(x, y) && leq(y, z) ==> leq(x, z))
  }

  lemma {:induction false} SortedOrdered<K(!new), V(!new)>(es: Entries<K, V>, leq: Order<K, V>)
    requires TotalOrder(leq)
    ensures Ordered(Sorted(es, leq), leq)
  {
    if es != [] {
      SortedOrdered(es[1..], leq);
      PlacedOrdered(es[0], Sorted(es[1..], leq), leq);
    }
  }

  lemma {:induction false} PlacedOrdered<K(!new), V(!new)>(e: (K, V), es: Entries<K, V>, leq: Order<K, V>)
    requires TotalOrder(leq) && Ordered(es, leq)
    ensures Ordered(Placed(e, es, leq), leq)
  {
    if es != [] && !leq(e, es[0]) {
      PlacedOrdered(e, es[1..], leq);
      var rest := Placed(e, es[1..], leq);
      PlacedKeeps(e, es[1..], leq);
      forall j | 0 <= j < |rest|
        ensures leq(es[0], rest[j])
      {
        assert rest[j] in multiset(rest);
        assert rest[j] in [e] + es[1..];
      }
    }
  }

  // Entries that compare equal keep their order.
  lemma {:induction false} SortedStable<K(!new), V(!new)>(es: Entries<K, V>, leq: Order<K, V>, x: (K, V))
    requires TotalOrder(leq)
    ensures Equals(Sorted(es, leq), leq, x) == Equals(es, leq, x)
  {
    if es != [] {
      SortedStable(es[1..], leq, x);
      SortedOrdered(es[1..], leq);
      PlacedStable(es[0], Sorted(es[1..], leq), leq, x);
    }
  }

  function Equals<K, V>(es: Entries<K, V>, leq: Order<K, V>, x: (K, V)): Entries<K, V> {
    if es == [] then []
    else (if leq(es[0], x) && leq(x, es[0]) then [es[0]] else []) + Equals(es[1..], leq, x)
  }

  lemma {:induction false} PlacedStable<K(!new), V(!new)>(e: (K, V), es: Entries<K, V>, leq: Order<K, V>, x: (K, V))
    requires TotalOrder(leq)
    ensures Equals(Placed(e, es, leq), leq, x) == Equals([e] + es, leq, x)
  {
    assert ([e] + es)[1..] == es;
    if es == [] || leq(e, es[0]) {
    } else {
      PlacedStable(e, es[1..], leq, x);
      assert ([e] + es[1..])[1..] == es[1..];
      assert Placed(e, es, leq)[1..] == Placed(e, es[1..], leq);
    }
  }

  // ---------------------------------------------------------------- filtering from the back

  lemma {:induction false} RetainedSplit<K, V>(es: Entries<K, V>, f: Keep<K, V>, p: nat, q: nat)
    requires p <= q <= |es|
    requires forall i :: p <= i < q ==> f(es[i].0, es[i].1).0
    ensures Retained(es[p..], f) == Changed(es, f)[p..q] + Retained(es[q..], f)
    decreases q - p
  {
    if p == q {
      assert Changed(es, f)[p..q] == [];
    } else {
      RetainedSplit(es, f, p + 1, q);
      assert es[p..][0] == es[p] && es[p..][1..] == es[p + 1..];
      assert Changed(es, f)[p..q] == [Changed(es, f)[p]] + Changed(es, f)[p + 1..q];
    }
  }

  // The entries with every value changed and nothing dropped yet.
  function Changed<K, V>(es: Entries<K, V>, f: Keep<K, V>): (r: Entries<K, V>)
    ensures |r| == |es|
  {
    seq(|es|, i requires 0 <= i < |es| => (es[i].0, f(es[i].0, es[i].1).1))
  }

  lemma RetainedDrop<K, V>(es: Entries<K, V>, f: Keep<K, V>, p: nat)
    requires p < |es| && !f(es[p].0, es[p].1).0
    ensures Retained(es[p..], f) == Retained(es[p + 1..], f)
  {
    assert es[p..][0] == es[p] && es[p..][1..] == es[p + 1..];
  }

  // The entries to drop among the first i, in order.
  ghost predicate Marked<K, V>(es: Entries<K, V>, f: Keep<K, V>, drop: seq<nat>, i: nat) {
    && i <= |es|
    && (forall j :: 0 <= j < |drop| ==> drop[j] < i && !f(es[drop[j]].0, es[drop[j]].1).0)
    && (forall j, k :: 0 <= j < k < |drop| ==> drop[j] < drop[k])
    && (forall k :: 0 <= k < i && !f(es[k].0, es[k].1).0 ==> k in drop)
  }

  // Between the last mark and the end everything is kept.
  lemma LastMark<K, V>(es: Entries<K, V>, f: Keep<K, V>, drop: seq<nat>, p: nat)
    requires Marked(es, f, drop, p) && drop != []
    ensures var i := drop[|drop| - 1];
      && i < p <= |es| && !f(es[i].0, es[i].1).0
      && (forall k :: i < k < p ==> f(es[k].0, es[k].1).0)
      && Marked(es, f, drop[..|drop| - 1], i)
  {
    var i := drop[|drop| - 1];
    forall k | 0 <= k < p && !f(es[k].0, es[k].1).0
      ensures k <= i && (k < i ==> k in drop[..|drop| - 1])
    {
      var j :| 0 <= j < |drop| && drop[j] == k;
      if j < |drop| - 1 { assert drop[..|drop| - 1][j] == k; }
    }
  }

  // The entries once everything to drop from p on is gone.
  function Suffixed<K, V>(es: Entries<K, V>, f: Keep<K, V>, p: nat): Entries<K, V>
    requires p <= |es|
  {
    Changed(es, f)[..p] + Retained(es[p..], f)
  }

  lemma NothingDropped<K, V>(es: Entries<K, V>, f: Keep<K, V>)
    ensures Suffixed(es, f, |es|) == Changed(es, f)
  {
    assert es[|es|..] == [];
  }

  lemma DropOne<K, V>(es: Entries<K, V>, f: Keep<K, V>, i: nat, p: nat)
    requires i < p <= |es| && !f(es[i].0, es[i].1).0
    requires forall k :: i < k < p ==> f(es[k].0, es[k].1).0
    ensures var all := Suffixed(es, f, p); i < |all| && all[..i] + all[i + 1..] == Suffixed(es, f, i)
  {
    hide Retained, Changed;
    RetainedSplit(es, f, i + 1, p);
    RetainedDrop(es, f, i);
    var all := Suffixed(es, f, p);
    assert all[i + 1..] == Changed(es, f)[i + 1..p] + Retained(es[p..], f);
  }

  lemma NoMark<K, V>(es: Entries<K, V>, f: Keep<K, V>, p: nat)
    requires Marked(es, f, [], p)
    ensures Suffixed(es, f, p) == Retained(es, f)
  {
    RetainedSplit(es, f, 0, p);
    assert es[0..] == es && Changed(es, f)[0..p] == Changed(es, f)[..p];
  }

  // ---------------------------------------------------------------- the map

  // The index is exactly the position map of the entries; their keys are then distinct.
  ghost predicate Positions<K, V>(es: Entries<K, V>, index: map<K, nat>) {
    && (forall i :: 0 <= i < |es| ==> es[i].0 in index && index[es[i].0] == i)
    && (forall k :: k in index ==> index[k] < |es| && es[index[k]].0 == k)
  }

  // Nothing is indexed that is not an entry.
  ghost predicate NothingStale<K, V>(es: Entries<K, V>, index: map<K, nat>) {
    forall k :: k in index ==> HasKey(es, k)
  }

  datatype Op<!K, !V> =
    | Insert(key: K, value: V)
    | Remove(key: K)
    | Retain(keep: Keep<K, V>)
    | SortBy(leq: Order<K, V>)
    | Extend(more: Entries<K, V>)
    | OrInsert(key: K, value: V)
    | Clear

  // What one operation does to an association list, and what it answers.
  function Apply<K(==), V>(es: Entries<K, V>, op: Op<K, V>): (Entries<K, V>, Option<V>) {
    match op
    case Insert(key, value) => (Put(es, key, value), Lookup(es, key))
    case Remove(key) => (Without(es, key), Lookup(es, key))
    case Retain(keep) => (Retained(es, keep), None)
    case SortBy(leq) => (Sorted(es, leq), None)
    case Extend(more) => (PutAll(es, more), None)
    case OrInsert(key, value) =>
      if Lookup(es, key).Some? then (es, Lookup(es, key)) else (Put(es, key, value), Some(value))
    case Clear => ([], None)
  }

  function ApplyAll<K(==), V>(es: Entries<K, V>, ops: seq<Op<K, V>>): (Entries<K, V>, seq<Option<V>>)
    decreases |ops|
  {
    if ops == [] then (es, [])
    else
      var (before, answers) := ApplyAll(es, ops[..|ops| - 1]);
      var (after, answer) := Apply(before, ops[|ops| - 1]);
      (after, answers + [answer])
  }

  class OrderedMap<!K(==), !V> {
    var entries: Entries<K, V>
    var index: map<K, nat>

    ghost predicate Valid()
      reads this
    {
      Positions(entries, index)
    }

    constructor ()
      ensures Valid() && entries == []
    {
      entries, index := [], map[];
    }

    method Get(key: K) returns (r: Option<V>)
      requires Valid()
      ensures r == Lookup(entries, key)
    {
      if key in index {
        LookupAt(entries, index[key]);
        return Some(entries[index[key]].1);
      }
      LookupNone(entries, key);
      return None;
    }

    method ContainsKey(key: K) returns (r: bool)
      requires Valid()
      ensures r <==> Lookup(entries, key).Some?
    {
      LookupNone(entries, key);
      return key in index;
    }

    method Insert(key: K, value: V) returns (before: Option<V>)
      requires Valid()
      modifies this
      ensures Valid()
      ensures entries == Put(old(entries), key, value) && before == Lookup(old(entries), key)
    {
      if key in index {
        var idx := index[key];
        LookupAt(entries, idx);
        PutAt(entries, idx, value);
        before := Some(entries[idx].1);
        entries := entries[idx := (entries[idx].0, value)];
      } else {
        LookupNone(entries, key);
        PutNew(entries, key, value);
        before := None;
        index := index[key := |entries|];
        entries := entries + [(key, value)];
      }
    }

    // Enters the positions of the entries from a place on.
    method Reindex(from: nat)
      requires from <= |entries| && Distinct(entries) && NothingStale(entries, index)
      requires forall i :: 0 <= i < from ==> entries[i].0 in index && index[entries[i].0] == i
      modifies `index
      ensures Valid()
    {
      for i := from to |entries|
        invariant NothingStale(entries, index)
        invariant forall j :: 0 <= j < i ==> entries[j].0 in index && index[entries[j].0] == j
      {
        index := index[entries[i].0 := i];
      }
    }

    method Remove(key: K) returns (r: Option<V>)
      requires Valid()
      modifies this
      ensures Valid()
      ensures entries == Without(old(entries), key) && r == Lookup(old(entries), key)
    {
      if key in index {
        var idx := index[key];
        LookupAt(entries, idx);
        WithoutAt(entries, idx);
        r := Some(entries[idx].1);
        index := index - {key};
        entries := entries[..idx] + entries[idx + 1..];
        RemoveOne(old(entries), old(index), idx);
        Reindex(idx);
      } else {
        LookupNone(entries, key);
        WithoutNone(entries, key);
        r := None;
      }
    }

    method Extend(more: Entries<K, V>)
      requires Valid()
      modifies this
      ensures Valid() && entries == PutAll(old(entries), more)
    {
      for i := 0 to |more|
        invariant Valid()
        invariant PutAll(entries, more[i..]) == PutAll(old(entries), more)
      {
        assert more[i..][0] == more[i] && more[i..][1..] == more[i + 1..];
        var before := Insert(more[i].0, more[i].1);
      }
    }

    method OrInsert(key: K, default: V) returns (r: V)
      requires Valid()
      modifies this
      ensures Valid()
      ensures entries == (if Lookup(old(entries), key).Some? then old(entries) else Put(old(entries), key, default))
      ensures Lookup(entries, key) == Some(r)
    {
      LookupNone(entries, key);
      if key in index {
        var idx := index[key];
        LookupAt(entries, idx);
        return entries[idx].1;
      }
      PutNew(entries, key, default);
      PutThenLookup(entries, key, default, key);
      var idx := |entries|;
      index := index[key := idx];
      entries := entries + [(key, default)];
      return entries[idx].1;
    }

    // The library's sort is stable; the index is entered again.
    method SortBy(leq: Order<K, V>)
      requires Valid()
      modifies this
      ensures Valid() && entries == Sorted(old(entries), leq)
    {
      SortedKeeps(entries, leq);
      entries := Sorted(entries, leq);
      SameKeys(old(entries), entries);
      Reindex(0);
    }

    // The first pass: values are changed and the entries to drop are marked.
    method ChangeValues(f: Keep<K, V>) returns (drop: seq<nat>)
      modifies `entries
      ensures entries == Changed(old(entries), f) && Marked(old(entries), f, drop, |old(entries)|)
    {
      ghost var es := entries;
      drop := [];
      for i := 0 to |entries|
        invariant |entries| == |es| && Marked(es, f, drop, i)
        invariant forall k :: 0 <= k < i ==> entries[k] == Changed(es, f)[k]
        invariant forall k :: i <= k < |es| ==> entries[k] == es[k]
      {
        var (keep, value) := f(entries[i].0, entries[i].1);
        entries := entries[i := (entries[i].0, value)];
        if !keep {
          drop := drop + [i];
        }
      }
    }

    // One removal of the second pass.
    method DropAt(i: nat)
      requires i < |entries| && Distinct(entries) && NothingStale(entries, index)
      modifies this
      ensures Distinct(entries) && NothingStale(entries, index)
      ensures entries == old(entries[..i] + entries[i + 1..])
    {
      var key := entries[i].0;
      RemoveOne(entries, index, i);
      index := index - {key};
      entries := entries[..i] + entries[i + 1..];
    }

    // The second pass goes from the back, so that the marks stay right.
    method Retain(f: Keep<K, V>)
      requires Valid()
      modifies this
      ensures Valid() && entries == Retained(old(entries), f)
    {
      ghost var es := entries;
      SameNames(es, f, index);
      var drop := ChangeValues(f);
      hide *;
      ghost var p: nat := |es|;
      NothingDropped(es, f);
      var left := drop;
      while left != []
        invariant Marked(es, f, left, p)
        invariant p <= |es| && entries == Suffixed(es, f, p)
        invariant Distinct(entries) && NothingStale(entries, index)
      {
        var i := left[|left| - 1];
        LastMark(es, f, left, p);
        DropOne(es, f, i, p);
        DropAt(i);
        left := left[..|left| - 1];
        p := i;
      }
      NoMark(es, f, p);
      Reindex(0);
    }

    method Clear()
      modifies this
      ensures Valid() && entries == []
    {
      entries, index := [], map[];
    }

    // Any run of operations answers and leaves what the association list does.
    method Run(ops: seq<Op<K, V>>) returns (answers: seq<Option<V>>)
      requires Valid()
      modifies this
      ensures Valid() && (entries, answers) == ApplyAll(old(entries), ops)
    {
      answers := [];
      for i := 0 to |ops|
        invariant Valid() && (entries, answers) == ApplyAll(old(entries), ops[..i])
      {
        assert ops[..i + 1][..i] == ops[..i];
        var answer := None;
        match ops[i] {
          case Insert(key, value) => answer := Insert(key, value);
          case Remove(key) => answer := Remove(key);
          case Retain(keep) => Retain(keep);
          case SortBy(leq) => SortBy(leq);
          case Extend(more) => Extend(more);
          case OrInsert(key, value) =>
            PutThenLookup(entries, key, value, key);
            var v := OrInsert(key, value);
            answer := Some(v);
          case Clear => Clear();
        }
        answers := answers + [answer];
      }
      assert ops[..|ops|] == ops;
    }
  }

  // Removing one entry and its index keeps the rest in step.
  lemma RemoveOne<K, V>(es: Entries<K, V>, index: map<K, nat>, i: nat)
    requires i < |es| && Distinct(es) && NothingStale(es, index)
    ensures Distinct(es[..i] + es[i + 1..]) && NothingStale(es[..i] + es[i + 1..], index - {es[i].0})
  {
    forall k | k in index - {es[i].0}
      ensures HasKey(es[..i] + es[i + 1..], k)
    {
      StillThere(es, i, k);
    }
  }

  lemma SameNames<K, V>(es: Entries<K, V>, f: Keep<K, V>, index: map<K, nat>)
    requires Positions(es, index)
    ensures Distinct(Changed(es, f)) && NothingStale(Changed(es, f), index)
  {
    forall k | k in index
      ensures HasKey(Changed(es, f), k)
    {
      assert Changed(es, f)[index[k]].0 == k;
    }
  }

  lemma StillThere<K, V>(es: Entries<K, V>, i: nat, k: K)
    requires i < |es| && HasKey(es, k) && es[i].0 != k
    ensures HasKey(es[..i] + es[i + 1..], k)
  {
    var j :| 0 <= j < |es| && es[j].0 == k;
    var rest := es[..i] + es[i + 1..];
    assert rest[if j < i then j else j - 1].0 == k;
  }

  // A rearrangement has the same keys, still once each.
  lemma SameKeys<K, V>(es: Entries<K, V>, fs: Entries<K, V>)
    requires Distinct(es) && multiset(es) == multiset(fs)
    ensures Distinct(fs)
    ensures forall k :: HasKey(es, k) ==> HasKey(fs, k)
  {
    forall k | HasKey(es, k)
      ensures HasKey(fs, k)
    {
      var i :| 0 <= i < |es| && es[i].0 == k;
      assert es[i] in multiset(fs);
      var j :| 0 <= j < |fs| && fs[j] == es[i];
    }
    forall i, j | 0 <= i < j < |fs|
      ensures fs[i].0 != fs[j].0
    {
      if fs[i].0 == fs[j].0 {
        assert fs[i] in multiset(es) && fs[j] in multiset(es);
        var a :| 0 <= a < |es| && es[a] == fs[i];
        Twice(fs, i, j);
        Once(es, a);
        assert false;
      }
    }
  }

  lemma Twice<T>(s: seq<T>, i: nat, j: nat)
    requires i < j < |s| && s[i] == s[j]
    ensures multiset(s)[s[i]] >= 2
  {
    assert s == s[..i] + [s[i]] + s[i + 1..j] + [s[j]] + s[j + 1..];
  }

  lemma Once<T>(s: seq<T>, a: nat)
    requires a < |s| && forall b :: 0 <= b < |s| && b != a ==> s[b] != s[a]
    ensures multiset(s)[s[a]] == 1
  {
    assert s == s[..a] + [s[a]] + s[a + 1..];
    assert s[a] !in s[..a] && s[a] !in s[a + 1..];
  }
}
