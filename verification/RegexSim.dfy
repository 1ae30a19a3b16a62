// The Thompson simulation of the regex engine: boolean arrays of live states,
// closed under epsilon moves by a marking search.
module RegexSim {
  import opened Wrappers
  import opened RegexNfa

  ghost predicate Marks(a: seq<bool>, x: nat) {
    x < |a| && a[x]
  }

  ghost function Unmarked(a: seq<bool>): set<nat> {
    set x: nat | x < |a| && !a[x]
  }

  lemma UnmarkedShrinks(a: seq<bool>, b: seq<bool>)
    requires |a| == |b| && forall x: nat :: Marks(a, x) ==> Marks(b, x)
    ensures Unmarked(b) <= Unmarked(a)
  {
    forall x | x in Unmarked(b) ensures x in Unmarked(a) {
      assert Marks(a, x) ==> Marks(b, x);
    }
  }

  // Whatever a marked state moves to without reading is marked.
  ghost predicate Closed(nfa: Nfa, text: string, pos: nat, a: seq<bool>) {
    forall x: nat, y: nat | Marks(a, x) && Eps(nfa, text, pos, x, y) && y < |a| :: Marks(a, y)
  }

  ghost predicate AllReached(nfa: Nfa, text: string, start: nat, pos: nat, a: seq<bool>) {
    forall x: nat | Marks(a, x) :: Reaches(nfa, text, start, x, pos)
  }

  // The marks are exactly the states that some path from state 0 at `start` reaches at `pos`.
  ghost predicate Exact(nfa: Nfa, text: string, start: nat, pos: nat, a: seq<bool>) {
    |a| == |nfa.states| && forall x: nat :: Marks(a, x) <==> Reaches(nfa, text, start, x, pos)
  }

  // Marks `q` and everything it leads to without reading; already marked states are not searched again.
  method AddState(nfa: Nfa, states: array<bool>, q: nat, pos: nat, text: string, ghost start: nat)
    requires states.Length == |nfa.states|
    requires q < |nfa.states| ==> Reaches(nfa, text, start, q, pos)
    modifies states
    ensures forall x: nat :: Marks(old(states[..]), x) ==> Marks(states[..], x)
    ensures q < |nfa.states| ==> Marks(states[..], q)
    ensures forall x: nat | Marks(states[..], x) && !Marks(old(states[..]), x) :: Reaches(nfa, text, start, x, pos)
    ensures forall x: nat, y: nat | Marks(states[..], x) && !Marks(old(states[..]), x) && Eps(nfa, text, pos, x, y) && y < |nfa.states| ::
              Marks(states[..], y)
    decreases Unmarked(states[..])
  {
    hide Reaches;
    if q >= |nfa.states| || states[q] { return; }
    ghost var before := states[..];
    states[q] := true;
    assert states[..] == before[q := true];
    assert q in Unmarked(before) && q !in Unmarked(states[..]);
    match nfa.states[q]
    case Split(a, b) =>
      if a < |nfa.states| { ReachesMove(nfa, text, start, q, pos, a, pos); }
      if b < |nfa.states| { ReachesMove(nfa, text, start, q, pos, b, pos); }
      ghost var mid := states[..];
      assert Marks(mid, q);
      AddState(nfa, states, a, pos, text, start);
      assert Marks(states[..], q);
      UnmarkedShrinks(mid, states[..]);
      AddState(nfa, states, b, pos, text, start);
    case Match(Assert(anchor), next) =>
      if Holds(nfa.word, anchor, text, pos) {
        if next < |nfa.states| { ReachesMove(nfa, text, start, q, pos, next, pos); }
        AddState(nfa, states, next, pos, text, start);
      }
    case _ =>
  }

  // A closed set that has every state read into it from an exact set is exact.
  lemma {:induction false} ExactNext(nfa: Nfa, text: string, start: nat, pos: nat, a: seq<bool>, b: seq<bool>, k: nat, q: nat)
    requires start <= pos && Exact(nfa, text, start, pos, a) && |b| == |nfa.states| && Closed(nfa, text, pos + 1, b)
    requires forall x: nat, y: nat | Marks(a, x) && Reads(nfa, text, pos, x, y) && y < |b| :: Marks(b, y)
    requires q < |nfa.states| && Path(nfa, text, k, 0, start, q, pos + 1)
    ensures Marks(b, q)
    decreases k
  {
    if k > 0 {
      var p: nat, m: nat :| Path(nfa, text, k - 1, 0, start, p, m) && Move(nfa, text, p, m, q, pos + 1);
      if m == pos + 1 {
        ExactNext(nfa, text, start, pos, a, b, k - 1, p);
      } else {
        assert Reaches(nfa, text, start, p, pos);
      }
    }
  }

  lemma {:induction false} ExactFirst(nfa: Nfa, text: string, start: nat, a: seq<bool>, k: nat, q: nat)
    requires |a| == |nfa.states| && Closed(nfa, text, start, a) && (nfa.states != [] ==> Marks(a, 0))
    requires q < |nfa.states| && Path(nfa, text, k, 0, start, q, start)
    ensures Marks(a, q)
    decreases k
  {
    if k > 0 {
      var p: nat, m: nat :| Path(nfa, text, k - 1, 0, start, p, m) && Move(nfa, text, p, m, q, start);
      PathForward(nfa, text, k - 1, 0, start, p, m);
      ExactFirst(nfa, text, start, a, k - 1, p);
    }
  }

  method Clear(a: array<bool>)
    modifies a
    ensures forall i | 0 <= i < a.Length :: !a[i]
  {
    for i := 0 to a.Length
      invariant forall k | 0 <= k < i :: !a[k]
    {
      a[i] := false;
    }
  }

  method AnyAccept(nfa: Nfa, a: array<bool>) returns (r: bool)
    requires a.Length == |nfa.states|
    ensures r <==> exists q: nat :: Marks(a[..], q) && nfa.states[q].Accept?
  {
    r := false;
    for i := 0 to a.Length
      invariant r <==> exists q: nat :: q < i && Marks(a[..], q) && nfa.states[q].Accept?
    {
      if a[i] && nfa.states[i].Accept? {
        assert Marks(a[..], i);
        r := true;
      }
    }
  }

  // One character: the states reached by reading it, closed under epsilon moves.
  method Advance(nfa: Nfa, current: array<bool>, next: array<bool>, pos: nat, text: string, ghost start: nat)
    requires current.Length == next.Length == |nfa.states| && current != next && start <= pos < |text|
    requires Exact(nfa, text, start, pos, current[..])
    modifies next
    ensures Exact(nfa, text, start, pos + 1, next[..])
  {
    hide Reaches;
    Clear(next);
    ghost var cur := current[..];
    for i := 0 to |nfa.states|
      invariant current[..] == cur
      invariant AllReached(nfa, text, start, pos + 1, next[..]) && Closed(nfa, text, pos + 1, next[..])
      invariant forall x: nat, y: nat | x < i && Marks(cur, x) && Reads(nfa, text, pos, x, y) && y < |nfa.states| :: Marks(next[..], y)
    {
      if current[i] && nfa.states[i].Match? && MatchNode(nfa.states[i].node, text[pos]) {
        var to := nfa.states[i].next;
        assert Marks(cur, i);
        if to < |nfa.states| { ReachesMove(nfa, text, start, i, pos, to, pos + 1); }
        AddState(nfa, next, to, pos + 1, text, start);
      }
    }
    ExactByPaths(nfa, text, start, pos, cur, next[..]);
  }

  lemma ExactByPaths(nfa: Nfa, text: string, start: nat, pos: nat, a: seq<bool>, b: seq<bool>)
    requires start <= pos && Exact(nfa, text, start, pos, a) && |b| == |nfa.states| && Closed(nfa, text, pos + 1, b)
    requires AllReached(nfa, text, start, pos + 1, b)
    requires forall x: nat, y: nat | Marks(a, x) && Reads(nfa, text, pos, x, y) && y < |b| :: Marks(b, y)
    ensures Exact(nfa, text, start, pos + 1, b)
  {
    hide Exact, Closed;
    forall q: nat | Reaches(nfa, text, start, q, pos + 1) ensures Marks(b, q) {
      var k: nat :| Path(nfa, text, k, 0, start, q, pos + 1);
      ExactNext(nfa, text, start, pos, a, b, k, q);
    }
    ExactMeans(nfa, text, start, pos + 1, b);
  }

  lemma ExactMeans(nfa: Nfa, text: string, start: nat, pos: nat, a: seq<bool>)
    requires |a| == |nfa.states| && AllReached(nfa, text, start, pos, a)
    requires forall q: nat | Reaches(nfa, text, start, q, pos) :: Marks(a, q)
    ensures Exact(nfa, text, start, pos, a)
  {
    hide Reaches;
  }

  lemma ExactAccepts(nfa: Nfa, text: string, start: nat, pos: nat, a: seq<bool>)
    requires Exact(nfa, text, start, pos, a)
    ensures Accepts(nfa, text, start, pos) <==> exists q: nat :: Marks(a, q) && nfa.states[q].Accept?
  {
    hide Reaches;
  }

  lemma ExactStart(nfa: Nfa, text: string, start: nat, a: seq<bool>)
    requires |a| == |nfa.states| && Closed(nfa, text, start, a) && AllReached(nfa, text, start, start, a)
    requires nfa.states != [] ==> Marks(a, 0)
    ensures Exact(nfa, text, start, start, a)
  {
    hide Exact, Closed;
    forall q: nat | Reaches(nfa, text, start, q, start) ensures Marks(a, q) {
      var k: nat :| Path(nfa, text, k, 0, start, q, start);
      ExactFirst(nfa, text, start, a, k, q);
    }
    ExactMeans(nfa, text, start, start, a);
  }

  // Marks `q` and what its splits lead to, ignoring assertions; the simulation uses it at the end of the text.
  method AddPlain(nfa: Nfa, states: array<bool>, q: nat)
    requires states.Length == |nfa.states|
    modifies states
    ensures forall x: nat :: Marks(old(states[..]), x) ==> Marks(states[..], x)
    ensures q >= |nfa.states| || old(states[q]) ==> states[..] == old(states[..])
    ensures q < |nfa.states| ==> Marks(states[..], q)
    decreases Unmarked(states[..])
  {
    if q >= |nfa.states| || states[q] { return; }
    ghost var before := states[..];
    states[q] := true;
    assert states[..] == before[q := true];
    assert q in Unmarked(before) && q !in Unmarked(states[..]);
    match nfa.states[q]
    case Split(a, b) =>
      ghost var mid := states[..];
      assert Marks(mid, q);
      AddPlain(nfa, states, a);
      assert Marks(states[..], q);
      UnmarkedShrinks(mid, states[..]);
      AddPlain(nfa, states, b);
    case _ =>
  }

  // The engine's last pass looks at assertions once more.  The search has
  // already followed every one that holds, so the pass marks nothing.
  method FixUp(nfa: Nfa, current: array<bool>, pos: nat, text: string, ghost start: nat)
    requires current.Length == |nfa.states| && pos == |text| && Exact(nfa, text, start, pos, current[..])
    modifies current
    ensures current[..] == old(current[..])
  {
    hide Reaches;
    ghost var before := current[..];
    for i := 0 to |nfa.states|
      invariant current[..] == before
    {
      if current[i] && nfa.states[i].Match? && nfa.states[i].node.Assert? {
        var next := nfa.states[i].next;
        var prevWord := pos > 0 && nfa.word(text[pos - 1]);
        var fires := match nfa.states[i].node.anchor
          case LineStart => false
          case LineEnd => true
          case WordBoundary => prevWord
          case NonWordBoundary => !prevWord;
        if fires {
          assert Marks(before, i) && Eps(nfa, text, pos, i, next);
          if next < |nfa.states| {
            ReachesMove(nfa, text, start, i, pos, next, pos);
            assert Marks(before, next);
          }
          AddPlain(nfa, current, next);
        }
      }
    }
  }

  // The greatest end of an accepting path from `start`, if there is one.
  ghost predicate Longest(nfa: Nfa, text: string, start: nat, r: Option<nat>) {
    && (r.Some? ==> Accepts(nfa, text, start, r.value))
    && (forall e: nat | Accepts(nfa, text, start, e) :: r.Some? && e <= r.value)
  }

  ghost predicate LongestUpTo(nfa: Nfa, text: string, start: nat, pos: nat, r: Option<nat>) {
    && (r.Some? ==> Accepts(nfa, text, start, r.value) && r.value <= pos)
    && (forall e: nat | e <= pos && Accepts(nfa, text, start, e) :: r.Some? && e <= r.value)
  }

  lemma LongestMore(nfa: Nfa, text: string, start: nat, pos: nat, r: Option<nat>, accepts: bool)
    requires LongestUpTo(nfa, text, start, pos, r) && accepts == Accepts(nfa, text, start, pos + 1)
    ensures LongestUpTo(nfa, text, start, pos + 1, if accepts then Some(pos + 1) else r)
  {
    hide Accepts;
  }

  lemma LongestFirst(nfa: Nfa, text: string, start: nat, accepts: bool)
    requires accepts == Accepts(nfa, text, start, start)
    ensures LongestUpTo(nfa, text, start, start, if accepts then Some(start) else None)
  {
    forall e: nat | e <= start && Accepts(nfa, text, start, e) ensures e == start {
      var q: nat :| Reaches(nfa, text, start, q, e) && nfa.states[q].Accept?;
      ReachesForward(nfa, text, start, q, e);
    }
  }

  lemma LongestAll(nfa: Nfa, text: string, start: nat, r: Option<nat>)
    requires LongestUpTo(nfa, text, start, |text|, r) && start <= |text|
    ensures Longest(nfa, text, start, r)
  {
    forall e: nat | Accepts(nfa, text, start, e) ensures e <= |text| {
      var q: nat :| Reaches(nfa, text, start, q, e) && nfa.states[q].Accept?;
      ReachesForward(nfa, text, start, q, e);
    }
  }

  method MatchAt(nfa: Nfa, text: string, start: nat) returns (last: Option<nat>)
    requires start <= |text|
    ensures Longest(nfa, text, start, last)
  {
    hide Reaches, Exact, Longest, LongestUpTo, Accepts, Closed;
    var n := |nfa.states|;
    var current, next := new bool[n], new bool[n];
    Seed(nfa, current, text, start);
    var accepts := AnyAccept(nfa, current);
    ExactAccepts(nfa, text, start, start, current[..]);
    LongestFirst(nfa, text, start, accepts);
    last := if accepts then Some(start) else None;
    var pos := start;
    while pos < |text|
      invariant start <= pos <= |text| && current != next && current.Length == next.Length == n
      invariant fresh(current) && fresh(next)
      invariant Exact(nfa, text, start, pos, current[..]) && LongestUpTo(nfa, text, start, pos, last)
    {
      Advance(nfa, current, next, pos, text, start);
      current, next := next, current;
      accepts := AnyAccept(nfa, current);
      ExactAccepts(nfa, text, start, pos + 1, current[..]);
      LongestMore(nfa, text, start, pos, last, accepts);
      pos := pos + 1;
      if accepts { last := Some(pos); }
    }
    FixUp(nfa, current, pos, text, start);
    accepts := AnyAccept(nfa, current);
    ExactAccepts(nfa, text, start, pos, current[..]);
    LongestTop(nfa, text, start, pos, last, accepts);
    if accepts { last := Some(pos); }
    LongestAll(nfa, text, start, last);
  }

  // Asking again whether the last position accepts changes nothing.
  lemma LongestTop(nfa: Nfa, text: string, start: nat, pos: nat, r: Option<nat>, accepts: bool)
    requires LongestUpTo(nfa, text, start, pos, r) && accepts == Accepts(nfa, text, start, pos)
    ensures accepts ==> r == Some(pos)
  {
    hide Accepts;
  }

  method Seed(nfa: Nfa, current: array<bool>, text: string, start: nat)
    requires current.Length == |nfa.states|
    modifies current
    ensures Exact(nfa, text, start, start, current[..])
  {
    hide Reaches, Exact;
    Clear(current);
    if nfa.states != [] { ReachesStart(nfa, text, start); }
    AddState(nfa, current, 0, start, text, start);
    ExactStart(nfa, text, start, current[..]);
  }
}
