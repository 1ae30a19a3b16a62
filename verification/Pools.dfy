// Insertion-ordered pools of distinct names, as both compilers keep them.
module Pools {
  import opened Wrappers

  function IndexOf(pool: seq<string>, s: string): (r: Option<nat>)
    ensures r.Some? ==> r.value < |pool| && pool[r.value] == s && s !in pool[..r.value]
    ensures r.None? ==> s !in pool
  {
    if pool == [] then None
    else if pool[0] == s then Some(0)
    else
      var r := IndexOf(pool[1..], s);
      if r.None? then None
      else
        assert pool[..r.value + 1] == [pool[0]] + pool[1..][..r.value];
        Some(r.value + 1)
  }

  function Interned(pool: seq<string>, s: string): (r: seq<string>)
    ensures pool <= r && s in r
  {
    if IndexOf(pool, s).Some? then pool else pool + [s]
  }

  function InternIndex(pool: seq<string>, s: string): (r: nat)
    ensures r < |Interned(pool, s)| && Interned(pool, s)[r] == s
  {
    var i := IndexOf(pool, s);
    if i.Some? then i.value else |pool|
  }

  lemma {:induction false} IndexOfPrefix(pool: seq<string>, final: seq<string>, s: string)
    requires pool <= final && s in pool
    ensures IndexOf(final, s) == IndexOf(pool, s) && IndexOf(pool, s).Some?
  {
    var i, j := IndexOf(pool, s), IndexOf(final, s);
    assert final[i.value] == s;
    assert j.value <= i.value;
    assert pool[j.value] == s;
  }

  // Interned names keep their index in every extension of the pool.
  lemma InternFinal(pool: seq<string>, final: seq<string>, s: string)
    requires Interned(pool, s) <= final
    ensures InternIndex(pool, s) < |final| && final[InternIndex(pool, s)] == s
    ensures IndexOf(final, s) == Some(InternIndex(pool, s))
  {
    var all := Interned(pool, s);
    IndexOfPrefix(all, final, s);
    if IndexOf(pool, s).None? {
      assert all == pool + [s];
      assert forall i :: 0 <= i < |pool| ==> pool[i] != s;
    }
  }

  lemma {:induction false} AppendIndex(pool: seq<string>, s: string)
    requires s !in pool
    ensures IndexOf(pool + [s], s) == Some(|pool|)
    ensures forall x | x in pool :: IndexOf(pool + [s], x) == IndexOf(pool, x)
  {
    if pool != [] {
      assert (pool + [s])[1..] == pool[1..] + [s];
      AppendIndex(pool[1..], s);
      forall x | x in pool ensures IndexOf(pool + [s], x) == IndexOf(pool, x) {
        if x != pool[0] { assert x in pool[1..]; }
      }
    }
  }
}
