// Paths inside a stretch of automaton code, and how they split where the code does.
module RegexPaths {
  import opened RegexNfa

  // `k` moves lead from `q` to `to`, all of them from states in [lo, hi).
  ghost predicate Walk(nfa: Nfa, text: string, lo: nat, hi: nat, k: nat, q: nat, i: nat, to: nat, j: nat) {
    if k == 0 then q == to && i == j
    else lo <= q < hi && exists p: nat, m: nat :: Move(nfa, text, q, i, p, m) && Walk(nfa, text, lo, hi, k - 1, p, m, to, j)
  }

  ghost predicate Goes(nfa: Nfa, text: string, lo: nat, hi: nat, q: nat, i: nat, to: nat, j: nat) {
    exists k: nat :: Walk(nfa, text, lo, hi, k, q, i, to, j)
  }

  // States in [lo, hi) move only to [lo, hi) or to `exit`, which lies outside.
  ghost predicate Sealed(nfa: Nfa, lo: nat, hi: nat, exit: nat) {
    && lo <= hi <= |nfa.states| && !(lo <= exit < hi)
    && forall q: nat | lo <= q < hi :: Targets(nfa.states[q], lo, hi, exit)
  }

  predicate Inside(t: nat, lo: nat, hi: nat, exit: nat) {
    lo <= t < hi || t == exit
  }

  predicate Targets(s: NfaState, lo: nat, hi: nat, exit: nat) {
    match s
    case Match(_, next) => Inside(next, lo, hi, exit)
    case Split(a, b) => Inside(a, lo, hi, exit) && Inside(b, lo, hi, exit)
    case Accept => false
  }

  lemma MoveInside(nfa: Nfa, text: string, lo: nat, hi: nat, exit: nat, q: nat, i: nat, p: nat, m: nat)
    requires Sealed(nfa, lo, hi, exit) && lo <= q < hi && Move(nfa, text, q, i, p, m)
    ensures Inside(p, lo, hi, exit)
  {
    assert Targets(nfa.states[q], lo, hi, exit);
  }

  lemma GoesHere(nfa: Nfa, text: string, lo: nat, hi: nat, q: nat, i: nat)
    ensures Goes(nfa, text, lo, hi, q, i, q, i)
  {
    assert Walk(nfa, text, lo, hi, 0, q, i, q, i);
  }

  lemma GoesFirst(nfa: Nfa, text: string, lo: nat, hi: nat, q: nat, i: nat, p: nat, m: nat, to: nat, j: nat)
    requires lo <= q < hi && Move(nfa, text, q, i, p, m) && Goes(nfa, text, lo, hi, p, m, to, j)
    ensures Goes(nfa, text, lo, hi, q, i, to, j)
  {
    var k: nat :| Walk(nfa, text, lo, hi, k, p, m, to, j);
    assert Walk(nfa, text, lo, hi, k + 1, q, i, to, j);
  }

  // A walk from inside begins with a move.
  lemma GoesStep(nfa: Nfa, text: string, lo: nat, hi: nat, q: nat, i: nat, to: nat, j: nat) returns (p: nat, m: nat)
    requires Goes(nfa, text, lo, hi, q, i, to, j) && q != to
    ensures lo <= q < hi && Move(nfa, text, q, i, p, m) && Goes(nfa, text, lo, hi, p, m, to, j)
  {
    var k: nat :| Walk(nfa, text, lo, hi, k, q, i, to, j);
    p, m :| Move(nfa, text, q, i, p, m) && Walk(nfa, text, lo, hi, k - 1, p, m, to, j);
  }

  // Outside the stretch there is nothing to walk.
  lemma GoesOutside(nfa: Nfa, text: string, lo: nat, hi: nat, q: nat, i: nat, to: nat, j: nat)
    requires !(lo <= q < hi)
    ensures Goes(nfa, text, lo, hi, q, i, to, j) <==> q == to && i == j
  {
    if q == to && i == j {
      GoesHere(nfa, text, lo, hi, q, i);
    }
  }

  // A walk stays in a sealed part that it starts in.
  lemma {:induction false} WalkStays(nfa: Nfa, text: string, lo: nat, hi: nat, lo': nat, hi': nat, k: nat, q: nat, i: nat, exit: nat, j: nat)
    requires Sealed(nfa, lo', hi', exit) && !(lo <= exit < hi) && Inside(q, lo', hi', exit)
    requires Walk(nfa, text, lo, hi, k, q, i, exit, j)
    ensures Walk(nfa, text, lo', hi', k, q, i, exit, j)
    decreases k
  {
    if k > 0 {
      var p: nat, m: nat :| Move(nfa, text, q, i, p, m) && Walk(nfa, text, lo, hi, k - 1, p, m, exit, j);
      MoveInside(nfa, text, lo', hi', exit, q, i, p, m);
      WalkStays(nfa, text, lo, hi, lo', hi', k - 1, p, m, exit, j);
    }
  }

  lemma {:induction false} WalkWider(nfa: Nfa, text: string, lo: nat, hi: nat, lo': nat, hi': nat, k: nat, q: nat, i: nat, to: nat, j: nat)
    requires lo <= lo' && hi' <= hi && Walk(nfa, text, lo', hi', k, q, i, to, j)
    ensures Walk(nfa, text, lo, hi, k, q, i, to, j)
    decreases k
  {
    if k > 0 {
      var p: nat, m: nat :| Move(nfa, text, q, i, p, m) && Walk(nfa, text, lo', hi', k - 1, p, m, to, j);
      WalkWider(nfa, text, lo, hi, lo', hi', k - 1, p, m, to, j);
    }
  }

  // For a sealed part, walks in the part and walks in the whole are the same.
  lemma GoesPart(nfa: Nfa, text: string, lo: nat, hi: nat, lo': nat, hi': nat, q: nat, i: nat, exit: nat, j: nat)
    requires lo <= lo' && hi' <= hi && Sealed(nfa, lo', hi', exit) && !(lo <= exit < hi) && Inside(q, lo', hi', exit)
    ensures Goes(nfa, text, lo, hi, q, i, exit, j) <==> Goes(nfa, text, lo', hi', q, i, exit, j)
  {
    if Goes(nfa, text, lo, hi, q, i, exit, j) {
      var k: nat :| Walk(nfa, text, lo, hi, k, q, i, exit, j);
      WalkStays(nfa, text, lo, hi, lo', hi', k, q, i, exit, j);
    }
    if Goes(nfa, text, lo', hi', q, i, exit, j) {
      var k: nat :| Walk(nfa, text, lo', hi', k, q, i, exit, j);
      WalkWider(nfa, text, lo, hi, lo', hi', k, q, i, exit, j);
    }
  }

  lemma {:induction false} WalkJoin(nfa: Nfa, text: string, lo: nat, hi: nat, k: nat, q: nat, i: nat, p: nat, m: nat, to: nat, j: nat)
    requires Walk(nfa, text, lo, hi, k, q, i, p, m) && Goes(nfa, text, lo, hi, p, m, to, j)
    ensures Goes(nfa, text, lo, hi, q, i, to, j)
    decreases k
  {
    if k > 0 {
      var p': nat, m': nat :| Move(nfa, text, q, i, p', m') && Walk(nfa, text, lo, hi, k - 1, p', m', p, m);
      WalkJoin(nfa, text, lo, hi, k - 1, p', m', p, m, to, j);
      GoesFirst(nfa, text, lo, hi, q, i, p', m', to, j);
    }
  }

  // A walk out of two adjacent stretches passes from the first to the second once.
  lemma {:induction false} WalkCut(nfa: Nfa, text: string, lo: nat, mid: nat, hi: nat, k: nat, q: nat, i: nat, next: nat, exit: nat, j: nat)
      returns (m: nat)
    requires lo <= mid <= hi && Sealed(nfa, lo, mid, next) && Sealed(nfa, mid, hi, exit) && Inside(next, mid, hi, exit)
    requires !(lo <= exit < hi) && Inside(q, lo, mid, next) && Walk(nfa, text, lo, hi, k, q, i, exit, j)
    ensures Goes(nfa, text, lo, mid, q, i, next, m) && Goes(nfa, text, mid, hi, next, m, exit, j)
    decreases k
  {
    if q == next {
      m := i;
      GoesHere(nfa, text, lo, mid, q, i);
      WalkStays(nfa, text, lo, hi, mid, hi, k, q, i, exit, j);
    } else {
      var p: nat, n: nat :| Move(nfa, text, q, i, p, n) && Walk(nfa, text, lo, hi, k - 1, p, n, exit, j);
      MoveInside(nfa, text, lo, mid, next, q, i, p, n);
      m := WalkCut(nfa, text, lo, mid, hi, k - 1, p, n, next, exit, j);
      GoesFirst(nfa, text, lo, mid, q, i, p, n, next, m);
    }
  }

  lemma GoesSeq(nfa: Nfa, text: string, lo: nat, mid: nat, hi: nat, q: nat, i: nat, next: nat, exit: nat, j: nat)
    requires lo <= mid <= hi && Sealed(nfa, lo, mid, next) && Sealed(nfa, mid, hi, exit) && Inside(next, mid, hi, exit)
    requires !(lo <= exit < hi) && Inside(q, lo, mid, next)
    ensures Goes(nfa, text, lo, hi, q, i, exit, j)
      <==> exists m: nat :: Goes(nfa, text, lo, mid, q, i, next, m) && Goes(nfa, text, mid, hi, next, m, exit, j)
  {
    if Goes(nfa, text, lo, hi, q, i, exit, j) {
      var k: nat :| Walk(nfa, text, lo, hi, k, q, i, exit, j);
      var m := WalkCut(nfa, text, lo, mid, hi, k, q, i, next, exit, j);
    }
    if m: nat :| Goes(nfa, text, lo, mid, q, i, next, m) && Goes(nfa, text, mid, hi, next, m, exit, j) {
      var k: nat :| Walk(nfa, text, lo, mid, k, q, i, next, m);
      WalkWider(nfa, text, lo, hi, lo, mid, k, q, i, next, m);
      var k': nat :| Walk(nfa, text, mid, hi, k', next, m, exit, j);
      WalkWider(nfa, text, lo, hi, mid, hi, k', next, m, exit, j);
      WalkJoin(nfa, text, lo, hi, k, q, i, next, m, exit, j);
    }
  }

  // A walk that starts in one sealed part and leaves it into another.
  lemma {:induction false} WalkVia(nfa: Nfa, text: string, lo: nat, hi: nat, k: nat, q: nat, i: nat, a: nat, b: nat, next: nat, c: nat, d: nat, exit: nat, j: nat)
      returns (m: nat)
    requires Sealed(nfa, a, b, next) && Sealed(nfa, c, d, exit) && Inside(next, c, d, exit)
    requires !(lo <= exit < hi) && Inside(q, a, b, next) && Walk(nfa, text, lo, hi, k, q, i, exit, j)
    requires exit != q || q == next
    requires !(a <= exit < b)
    ensures Goes(nfa, text, a, b, q, i, next, m) && Goes(nfa, text, c, d, next, m, exit, j)
    decreases k
  {
    if q == next {
      m := i;
      GoesHere(nfa, text, a, b, q, i);
      WalkStays(nfa, text, lo, hi, c, d, k, q, i, exit, j);
    } else {
      var p: nat, n: nat :| Move(nfa, text, q, i, p, n) && Walk(nfa, text, lo, hi, k - 1, p, n, exit, j);
      MoveInside(nfa, text, a, b, next, q, i, p, n);
      m := WalkVia(nfa, text, lo, hi, k - 1, p, n, a, b, next, c, d, exit, j);
      GoesFirst(nfa, text, a, b, q, i, p, n, next, m);
    }
  }

  ghost predicate Via(nfa: Nfa, text: string, q: nat, i: nat, a: nat, b: nat, next: nat, m: nat, c: nat, d: nat, exit: nat, j: nat) {
    Goes(nfa, text, a, b, q, i, next, m) && Goes(nfa, text, c, d, next, m, exit, j)
  }

  lemma GoesVia(nfa: Nfa, text: string, lo: nat, hi: nat, q: nat, i: nat, a: nat, b: nat, next: nat, c: nat, d: nat, exit: nat, j: nat)
    requires lo <= a && b <= hi && lo <= c && d <= hi
    requires Sealed(nfa, a, b, next) && Sealed(nfa, c, d, exit) && Inside(next, c, d, exit)
    requires !(lo <= exit < hi) && Inside(q, a, b, next)
    ensures Goes(nfa, text, lo, hi, q, i, exit, j) <==> exists m: nat :: Via(nfa, text, q, i, a, b, next, m, c, d, exit, j)
  {
    if Goes(nfa, text, lo, hi, q, i, exit, j) {
      var k: nat :| Walk(nfa, text, lo, hi, k, q, i, exit, j);
      var m := WalkVia(nfa, text, lo, hi, k, q, i, a, b, next, c, d, exit, j);
      assert Via(nfa, text, q, i, a, b, next, m, c, d, exit, j);
    }
    if m: nat :| Via(nfa, text, q, i, a, b, next, m, c, d, exit, j) {
      var k: nat :| Walk(nfa, text, a, b, k, q, i, next, m);
      WalkWider(nfa, text, lo, hi, a, b, k, q, i, next, m);
      var k': nat :| Walk(nfa, text, c, d, k', next, m, exit, j);
      WalkWider(nfa, text, lo, hi, c, d, k', next, m, exit, j);
      WalkJoin(nfa, text, lo, hi, k, q, i, next, m, exit, j);
    }
  }

  lemma SealedJoin(nfa: Nfa, lo: nat, mid: nat, hi: nat, next: nat, exit: nat)
    requires Sealed(nfa, lo, mid, next) && Sealed(nfa, mid, hi, exit) && Inside(next, mid, hi, exit) && !(lo <= exit < hi)
    ensures Sealed(nfa, lo, hi, exit)
  {
    forall q: nat | lo <= q < hi ensures Targets(nfa.states[q], lo, hi, exit) {
      if q < mid {
        assert Targets(nfa.states[q], lo, mid, next);
      } else {
        assert Targets(nfa.states[q], mid, hi, exit);
      }
    }
  }

  // ---- single characters ----

  predicate At(nfa: Nfa, p: nat, code: seq<NfaState>) {
    p + |code| <= |nfa.states| && nfa.states[p..p + |code|] == code
  }

  lemma AtSplit(nfa: Nfa, p: nat, a: seq<NfaState>, b: seq<NfaState>)
    requires At(nfa, p, a + b)
    ensures At(nfa, p, a) && At(nfa, p + |a|, b)
  {
    assert nfa.states[p..p + |a + b|][..|a|] == nfa.states[p..p + |a|];
    assert nfa.states[p..p + |a + b|][|a|..] == nfa.states[p + |a|..p + |a| + |b|];
  }

  lemma AtState(nfa: Nfa, p: nat, code: seq<NfaState>, i: nat)
    requires At(nfa, p, code) && i < |code|
    ensures nfa.states[p + i] == code[i]
  {
    assert nfa.states[p..p + |code|][i] == code[i];
  }

  // From a state with one successor.
  lemma GoesMatch(nfa: Nfa, text: string, lo: nat, hi: nat, q: nat, i: nat, exit: nat, j: nat)
    requires lo <= q < hi <= |nfa.states| && nfa.states[q].Match? && q != exit
    ensures Goes(nfa, text, lo, hi, q, i, exit, j)
      <==> exists m: nat :: Move(nfa, text, q, i, nfa.states[q].next, m) && Goes(nfa, text, lo, hi, nfa.states[q].next, m, exit, j)
  {
    if Goes(nfa, text, lo, hi, q, i, exit, j) {
      var p, m := GoesStep(nfa, text, lo, hi, q, i, exit, j);
    }
    if m: nat :| Move(nfa, text, q, i, nfa.states[q].next, m) && Goes(nfa, text, lo, hi, nfa.states[q].next, m, exit, j) {
      GoesFirst(nfa, text, lo, hi, q, i, nfa.states[q].next, m, exit, j);
    }
  }

  // From a state whose only successor is the exit.
  lemma GoesOut(nfa: Nfa, text: string, lo: nat, hi: nat, q: nat, i: nat, exit: nat, j: nat)
    requires lo <= q < hi <= |nfa.states| && nfa.states[q].Match? && nfa.states[q].next == exit && !(lo <= exit < hi)
    ensures Goes(nfa, text, lo, hi, q, i, exit, j) <==> Move(nfa, text, q, i, exit, j)
  {
    if Goes(nfa, text, lo, hi, q, i, exit, j) {
      var p, m := GoesStep(nfa, text, lo, hi, q, i, exit, j);
      GoesOutside(nfa, text, lo, hi, exit, m, exit, j);
    }
    if Move(nfa, text, q, i, exit, j) {
      GoesHere(nfa, text, lo, hi, exit, j);
      GoesFirst(nfa, text, lo, hi, q, i, exit, j, exit, j);
    }
  }

  lemma GoesSplit(nfa: Nfa, text: string, lo: nat, hi: nat, q: nat, i: nat, a: nat, b: nat, exit: nat, j: nat)
    requires lo <= q < hi <= |nfa.states| && nfa.states[q] == Split(a, b) && q != exit
    ensures Goes(nfa, text, lo, hi, q, i, exit, j)
      <==> Goes(nfa, text, lo, hi, a, i, exit, j) || Goes(nfa, text, lo, hi, b, i, exit, j)
  {
    if Goes(nfa, text, lo, hi, q, i, exit, j) {
      var p, m := GoesStep(nfa, text, lo, hi, q, i, exit, j);
    }
    if Goes(nfa, text, lo, hi, a, i, exit, j) {
      GoesFirst(nfa, text, lo, hi, q, i, a, i, exit, j);
    }
    if Goes(nfa, text, lo, hi, b, i, exit, j) {
      GoesFirst(nfa, text, lo, hi, q, i, b, i, exit, j);
    }
  }
}
