// Moving an alternative's code: the compiler rewrites the targets of code that
// it has already emitted, and the result is the code for the new place.
module RegexMove {
  import opened RegexNfa
  import opened RegexCode

  // Code of [from, end) goes to `to`; what led past the end now leads to `exit`.
  datatype Shift = Shift(from: nat, end: nat, to: nat, exit: nat)

  function Target(m: Shift, t: nat): nat {
    if t >= m.end then m.exit else if t < m.from then 0 else m.to + (t - m.from)
  }

  predicate Movable(m: Shift, t: nat) {
    t >= m.end || t >= m.from
  }

  function MovedState(m: Shift, s: NfaState): NfaState {
    match s
    case Match(node, next) => Match(node, Target(m, next))
    case Split(a, b) => Split(Target(m, a), Target(m, b))
    case Accept => Accept
  }

  // No target lies before the code, where the subtraction would underflow.
  predicate MovableState(m: Shift, s: NfaState) {
    match s
    case Match(_, next) => Movable(m, next)
    case Split(a, b) => Movable(m, a) && Movable(m, b)
    case Accept => true
  }

  function Moved(m: Shift, code: seq<NfaState>): (r: seq<NfaState>)
    ensures |r| == |code|
  {
    if code == [] then [] else [MovedState(m, code[0])] + Moved(m, code[1..])
  }

  predicate AllMovable(m: Shift, code: seq<NfaState>) {
    forall i | 0 <= i < |code| :: MovableState(m, code[i])
  }

  lemma {:induction false} MovedConcat(m: Shift, a: seq<NfaState>, b: seq<NfaState>)
    ensures Moved(m, a + b) == Moved(m, a) + Moved(m, b)
  {
    if a == [] {
      assert a + b == b;
    } else {
      assert (a + b)[1..] == a[1..] + b;
      MovedConcat(m, a[1..], b);
    }
  }

  lemma MovedAppend(m: Shift, a: seq<NfaState>, s: NfaState)
    ensures Moved(m, a + [s]) == Moved(m, a) + [MovedState(m, s)]
  {
    MovedConcat(m, a, [s]);
  }

  // Code for `x` at `b` with exit `y` becomes code for `x` at the moved place with the moved exit.
  ghost predicate Lands(m: Shift, code: seq<NfaState>, moved: seq<NfaState>) {
    Moved(m, code) == moved && AllMovable(m, code)
  }

  lemma LandsConcat(m: Shift, a: seq<NfaState>, b: seq<NfaState>, a': seq<NfaState>, b': seq<NfaState>)
    requires Lands(m, a, a') && Lands(m, b, b')
    ensures Lands(m, a + b, a' + b')
  {
    MovedConcat(m, a, b);
  }

  lemma LandsOne(m: Shift, s: NfaState)
    requires MovableState(m, s)
    ensures Lands(m, [s], [MovedState(m, s)])
  {
  }

  lemma LandsTwo(m: Shift, s: NfaState, t: NfaState)
    requires MovableState(m, s) && MovableState(m, t)
    ensures Lands(m, [s, t], [MovedState(m, s), MovedState(m, t)])
  {
    assert [s, t][1..] == [t];
  }

  lemma {:induction false} MoveItem(m: Shift, it: Item, b: nat, y: nat)
    requires m.from <= b && b + Len(it) <= m.end && m.from <= y
    ensures Lands(m, Code(it, b, y), Code(it, m.to + (b - m.from), Target(m, y)))
    decreases it, 1
  {
    match it
    case Atom(shape, q, _) =>
      var c := Code(it, b, y);
      if q.Once? { LandsOne(m, c[0]); } else { LandsTwo(m, c[0], c[1]); }
    case Zero(a) => LandsOne(m, Match(Assert(a), y));
    case Group(_, _, _, _) => MoveGroup(m, it, b, y);
  }

  lemma {:induction false} MoveGroup(m: Shift, it: Item, b: nat, y: nat)
    requires it.Group? && m.from <= b && b + Len(it) <= m.end && m.from <= y
    ensures Lands(m, Code(it, b, y), Code(it, m.to + (b - m.from), Target(m, y)))
    decreases it, 0
  {
    hide CodeAlts, LenAlts, Moved, AllMovable, Lands, Requantified;
    var alts, q := it.alts, it.quant;
    if q.Once? {
      MoveAlts(m, alts, b, y);
    } else if LenAlts(alts) == 0 {
      LandsOne(m, Split(y, y));
    } else {
      var n := LenAlts(alts);
      MoveAlts(m, alts, b, b + n);
      var b' := m.to + (b - m.from);
      MoveQuantified(m, CodeAlts(alts, b, b + n), CodeAlts(alts, b', b' + n), b, q, y);
    }
  }

  lemma MovedParts(m: Shift, code: seq<NfaState>, moved: seq<NfaState>, last: nat)
    requires Lands(m, code, moved) && last < |code|
    ensures |moved| == |code| && Lands(m, code[..last], moved[..last])
    ensures moved[last] == MovedState(m, code[last]) && MovableState(m, code[last])
  {
    var a, b := code[..last], code[last..];
    assert a + b == code && b[0] == code[last];
    MovedConcat(m, a, b);
    assert moved[..last] == Moved(m, a);
    assert moved[last] == Moved(m, b)[0];
  }

  // A quantified group moves like any code.
  lemma MoveQuantified(m: Shift, code: seq<NfaState>, moved: seq<NfaState>, b: nat, q: Quant, y: nat)
    requires code != [] && Lands(m, code, moved) && !q.Once?
    requires m.from <= b && b + |code| + 1 <= m.end && m.from <= y
    ensures |moved| == |code| && Lands(m, Requantified(code, b, q, y), Requantified(moved, m.to + (b - m.from), q, Target(m, y)))
  {
    hide Moved, AllMovable, Lands;
    var last := |code| - 1;
    MovedParts(m, code, moved, last);
    var s := code[last];
    var pair := Requantified(code, b, q, y)[last..];
    assert |pair| == 2 && Requantified(code, b, q, y) == code[..last] + [pair[0], pair[1]];
    LandsTwo(m, pair[0], pair[1]);
    LandsConcat(m, code[..last], [pair[0], pair[1]], moved[..last], [MovedState(m, pair[0]), MovedState(m, pair[1])]);
  }

  lemma {:induction false} MoveSeq(m: Shift, items: seq<Item>, b: nat, y: nat)
    requires m.from <= b && b + LenSeq(items) <= m.end && m.from <= y
    ensures Lands(m, CodeSeq(items, b, y), CodeSeq(items, m.to + (b - m.from), Target(m, y)))
    decreases items, 0
  {
    if items != [] {
      var it, rest := items[0], items[1..];
      var mid := b + Len(it);
      MoveItem(m, it, b, Entry(rest, mid, y));
      MoveSeq(m, rest, mid, y);
      LandsConcat(m, Code(it, b, Entry(rest, mid, y)), CodeSeq(rest, mid, y),
                  Code(it, m.to + (b - m.from), Target(m, Entry(rest, mid, y))),
                  CodeSeq(rest, m.to + (mid - m.from), Target(m, y)));
    }
  }

  lemma {:induction false} MoveAlts(m: Shift, alts: seq<Branch>, b: nat, y: nat)
    requires m.from <= b && b + LenAlts(alts) <= m.end && m.from <= y
    ensures Lands(m, CodeAlts(alts, b, y), CodeAlts(alts, m.to + (b - m.from), Target(m, y)))
    decreases alts, 2
  {
    if alts != [] {
      var body := b + |alts| - 1;
      var b', y' := m.to + (b - m.from), Target(m, y);
      MoveChain(m, alts, b, body, y);
      MoveBodies(m, alts, body, y);
      LandsConcat(m, Chain(alts, b, body, y), Bodies(alts, body, y), Chain(alts, b', b' + |alts| - 1, y'), Bodies(alts, b' + |alts| - 1, y'));
    }
  }

  lemma {:induction false} MoveChain(m: Shift, alts: seq<Branch>, chain: nat, body: nat, y: nat)
    requires alts != [] && m.from <= chain && m.from <= y
    requires chain + |alts| - 1 <= body && body + LenBodies(alts) <= m.end
    ensures Lands(m, Chain(alts, chain, body, y),
                  Chain(alts, m.to + (chain - m.from), m.to + (body - m.from), Target(m, y)))
    decreases |alts|
  {
    if |alts| > 1 {
      var body' := body + LenSeq(alts[0].items) + 1;
      var split := Split(body, Head(alts[1..], chain + 1, body', y));
      assert alts[1..][0] == alts[1];
      LandsOne(m, split);
      MoveChain(m, alts[1..], chain + 1, body', y);
      LandsConcat(m, [split], Chain(alts[1..], chain + 1, body', y), [MovedState(m, split)],
                  Chain(alts[1..], m.to + (chain + 1 - m.from), m.to + (body' - m.from), Target(m, y)));
    }
  }

  lemma {:induction false} MoveBodies(m: Shift, alts: seq<Branch>, body: nat, y: nat)
    requires m.from <= body && body + LenBodies(alts) <= m.end && m.from <= y
    ensures Lands(m, Bodies(alts, body, y), Bodies(alts, m.to + (body - m.from), Target(m, y)))
    decreases alts, 1
  {
    if |alts| == 1 {
      MoveSeq(m, alts[0].items, body, y);
    } else if |alts| > 1 {
      var first := alts[0].items;
      var body' := body + LenSeq(first) + 1;
      var at, at', y' := m.to + (body - m.from), m.to + (body' - m.from), Target(m, y);
      MoveSeq(m, first, body, y);
      LandsOne(m, Split(y, y));
      MoveBodies(m, alts[1..], body', y);
      LandsConcat(m, CodeSeq(first, body, y), [Split(y, y)], CodeSeq(first, at, y'), [Split(y', y')]);
      LandsConcat(m, CodeSeq(first, body, y) + [Split(y, y)], Bodies(alts[1..], body', y),
                  CodeSeq(first, at, y') + [Split(y', y')], Bodies(alts[1..], at', y'));
    }
  }
}
