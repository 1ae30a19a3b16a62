// What a quantifier on a group does: it binds to the last character of the group, and every
// other alternative runs into that character.  The automaton of a quantified group is
// characterised by an expression without quantified groups.
module RegexGroups {
  import opened RegexNfa
  import opened RegexCode
  import opened RegexPaths
  import opened RegexExact
  import opened RegexCompiler

  // ---- sequences from the back ----

  lemma {:induction false} SeqAppend(items: seq<Item>, it: Item, b: nat, exit: nat)
    requires Len(it) > 0
    ensures LenSeq(items + [it]) == LenSeq(items) + Len(it)
    ensures var mid := b + LenSeq(items);
      CodeSeq(items + [it], b, exit) == CodeSeq(items, b, mid) + Code(it, mid, exit)
    decreases items
  {
    hide Code, Len;
    if items == [] {
      assert items + [it] == [it] && [it][1..] == [];
      assert Code(it, b, exit) + [] == Code(it, b, exit);
    } else {
      var all := items + [it];
      assert all[0] == items[0] && all[1..] == items[1..] + [it];
      var mid := b + Len(items[0]);
      SeqAppend(items[1..], it, mid, exit);
      var last := b + LenSeq(items);
      assert Entry(all[1..], mid, exit) == Entry(items[1..], mid, last);
      RegexCompiler.Assoc(Code(items[0], b, Entry(all[1..], mid, exit)), CodeSeq(items[1..], mid, last), Code(it, last, exit));
    }
  }

  // The first items up to `m`, the last from there.
  ghost predicate MatchesTo(word: char -> bool, text: string, items: seq<Item>, it: Item, i: nat, m: nat, j: nat) {
    MatchesSeq(word, text, items, i, m) && Matches(word, text, it, m, j)
  }

  lemma {:induction false} SeqMatchesAppend(word: char -> bool, text: string, items: seq<Item>, it: Item, i: nat, j: nat)
    ensures MatchesSeq(word, text, items + [it], i, j) <==> exists m: nat :: MatchesTo(word, text, items, it, i, m, j)
    decreases items
  {
    hide Matches;
    var all := items + [it];
    if items == [] {
      assert all == [it] && all[1..] == [];
      if MatchesSeq(word, text, all, i, j) {
        var m := SeqSplit(word, text, all, i, j);
        assert MatchesTo(word, text, items, it, i, i, j);
      }
      if m: nat :| MatchesTo(word, text, items, it, i, m, j) {
        SeqJoined(word, text, all, i, j, j);
      }
    } else {
      assert all[0] == items[0] && all[1..] == items[1..] + [it];
      if MatchesSeq(word, text, all, i, j) {
        var n := SeqSplit(word, text, all, i, j);
        SeqMatchesAppend(word, text, items[1..], it, n, j);
        var m: nat :| MatchesTo(word, text, items[1..], it, n, m, j);
        SeqJoined(word, text, items, i, n, m);
        assert MatchesTo(word, text, items, it, i, m, j);
      }
      if m: nat :| MatchesTo(word, text, items, it, i, m, j) {
        var n := SeqSplit(word, text, items, i, m);
        assert MatchesTo(word, text, items[1..], it, n, m, j);
        SeqMatchesAppend(word, text, items[1..], it, n, j);
        SeqJoined(word, text, all, i, n, j);
      }
    }
  }

  // ---- the rewritten alternatives ----

  // What an alternative other than the last still reads of the last character.
  function Rest(q: Quant): Quant {
    match q
    case Once => Once
    case Star => Plus
    case Plus => Star
    case Optional => Once
  }

  // (A|..|B|Px)* becomes (Ax+|..|Bx+|Px*), and so on for the other quantifiers.
  function Rebound(alts: seq<Branch>, shape: Shape, q: Quant): (r: seq<Branch>)
    ensures |r| == |alts|
    decreases |alts|
  {
    if alts == [] then []
    else if |alts| == 1 then
      var items := alts[0].items;
      [Branch((if items == [] then [] else items[..|items|-1]) + [Atom(shape, q, false)])]
    else [Branch(alts[0].items + [Atom(shape, Rest(q), false)])] + Rebound(alts[1..], shape, q)
  }

  // A group whose last alternative ends in an unquantified character.
  ghost predicate EndsIn(alts: seq<Branch>, shape: Shape) {
    && alts != [] && WellAlts(alts) && RegularAlts(alts)
    && var items := alts[|alts|-1].items; items != [] && items[|items|-1] == Atom(shape, Once, false)
  }

  lemma EndsRest(alts: seq<Branch>, shape: Shape)
    requires EndsIn(alts, shape) && |alts| > 1
    ensures EndsIn(alts[1..], shape) && WellSeq(alts[0].items) && RegularSeq(alts[0].items)
  {
    assert alts[1..][|alts| - 2] == alts[|alts| - 1];
  }

  lemma {:induction false} SeqPrefix(items: seq<Item>, it: Item)
    requires WellSeq(items + [it]) && RegularSeq(items + [it])
    ensures WellSeq(items) && RegularSeq(items) && Well(it) && Regular(it)
    decreases items
  {
    var all := items + [it];
    if items == [] {
      assert all[0] == it;
    } else {
      assert all[0] == items[0] && all[1..] == items[1..] + [it];
      SeqPrefix(items[1..], it);
    }
  }

  // ---- the two states of the quantified character ----

  // Entered at its second state, the character is read as after another alternative.
  lemma RestExact(nfa: Nfa, text: string, shape: Shape, q: Quant, last: nat, i: nat, j: nat)
    requires WellShape(shape) && !q.Once? && At(nfa, last, Code(Atom(shape, q, false), last, last + 2))
    ensures Goes(nfa, text, last, last + 2, last + 1, i, last + 2, j)
      <==> MatchesLeaf(nfa.word, text, Atom(shape, Rest(q), false), i, j)
  {
    hide NodeOf;
    var node, code, out := NodeOf(shape), Code(Atom(shape, q, false), last, last + 2), last + 2;
    ShapeReads(shape);
    AtState(nfa, last, code, 0);
    AtState(nfa, last, code, 1);
    match q {
      case Star =>
        LoopBody(nfa, text, node, last, last, last + 1, out, i, j);
        LoopExact(nfa, text, node, last, last, last + 1, out, i + 1, j);
        ManyStep(node, text, i, j);
      case Plus =>
        LoopExact(nfa, text, node, last, last + 1, last, out, i, j);
      case Optional =>
        GoesOut(nfa, text, last, last + 2, last + 1, i, out, j);
        MoveRead(nfa, text, last + 1, i, j);
    }
  }

  // ---- the alternatives ----

  // The states of a quantified group: the chain, the bodies without the last state, and the quantified character.
  ghost predicate Laid(nfa: Nfa, alts: seq<Branch>, shape: Shape, q: Quant, chain: nat, body: nat, lo: nat, last: nat) {
    && EndsIn(alts, shape) && !q.Once? && last + 2 <= |nfa.states|
    && lo <= chain && chain + |alts| - 1 <= body && body + LenBodies(alts) == last + 1
    && At(nfa, chain, Chain(alts, chain, body, last + 1))
    && LenBodies(alts) > 0 && At(nfa, body, Bodies(alts, body, last + 1)[..LenBodies(alts) - 1])
    && At(nfa, last, Code(Atom(shape, q, false), last, last + 2))
  }

  lemma QuantSealed(nfa: Nfa, text: string, shape: Shape, q: Quant, last: nat)
    requires WellShape(shape) && !q.Once? && At(nfa, last, Code(Atom(shape, q, false), last, last + 2))
    ensures ExactItem(nfa, text, Atom(shape, q, false), last, last + 2)
    ensures Sealed(nfa, last, last + 2, last + 2)
  {
    AtomExact(nfa, text, Atom(shape, q, false), last, last + 2);
  }

  // A sequence whose code leads to the second of the two states, or to the first.
  lemma RunsInto(nfa: Nfa, text: string, items: seq<Item>, shape: Shape, q: Quant, first: bool, body: nat, lo: nat, last: nat, i: nat, j: nat)
    requires WellSeq(items) && RegularSeq(items) && WellShape(shape) && !q.Once?
    requires At(nfa, last, Code(Atom(shape, q, false), last, last + 2))
    requires lo <= body && body + LenSeq(items) <= last && At(nfa, body, CodeSeq(items, body, if first then last else last + 1))
    ensures var next := if first then last else last + 1;
      Goes(nfa, text, lo, last + 2, Entry(items, body, next), i, last + 2, j)
      <==> MatchesSeq(nfa.word, text, items + [Atom(shape, if first then q else Rest(q), false)], i, j)
  {
    hide Goes, CodeSeq, Matches, MatchesSeq, Code, LenSeq;
    var next, it := if first then last else last + 1, Atom(shape, if first then q else Rest(q), false);
    var q0, mid := Entry(items, body, next), body + LenSeq(items);
    var end := last + 2;
    QuantSealed(nfa, text, shape, q, last);
    SeqExact(nfa, text, items, body, next);
    EntryInside(items, body, next);
    GoesVia(nfa, text, lo, end, q0, i, body, mid, next, last, end, end, j);
    SeqMatchesAppend(nfa.word, text, items, it, i, j);
    forall m: nat ensures Via(nfa, text, q0, i, body, mid, next, m, last, end, end, j)
                     <==> MatchesTo(nfa.word, text, items, it, i, m, j)
    {
      SeqAt(nfa, text, items, body, next, i, m);
      TailAt(nfa, text, shape, q, first, last, m, j);
    }
    if m: nat :| Via(nfa, text, q0, i, body, mid, next, m, last, end, end, j) {
      assert MatchesTo(nfa.word, text, items, it, i, m, j);
    }
    if m: nat :| MatchesTo(nfa.word, text, items, it, i, m, j) {
      assert Via(nfa, text, q0, i, body, mid, next, m, last, end, end, j);
    }
  }

  lemma TailAt(nfa: Nfa, text: string, shape: Shape, q: Quant, first: bool, last: nat, m: nat, j: nat)
    requires WellShape(shape) && !q.Once? && At(nfa, last, Code(Atom(shape, q, false), last, last + 2))
    ensures Goes(nfa, text, last, last + 2, if first then last else last + 1, m, last + 2, j)
      <==> Matches(nfa.word, text, Atom(shape, if first then q else Rest(q), false), m, j)
  {
    hide Goes, Matches, MatchesLeaf, Code;
    LeafMatches(nfa.word, text, Atom(shape, if first then q else Rest(q), false), m, j);
    if first {
      QuantSealed(nfa, text, shape, q, last);
      ItemAt(nfa, text, Atom(shape, q, false), last, last + 2, m, j);
    } else {
      RestExact(nfa, text, shape, q, last, m, j);
    }
  }

  // The parts of a laid group: one alternative and the others, or the last.
  lemma LaidParts(nfa: Nfa, alts: seq<Branch>, shape: Shape, q: Quant, chain: nat, body: nat, lo: nat, last: nat)
    requires Laid(nfa, alts, shape, q, chain, body, lo, last) && |alts| > 1
    ensures var n := LenSeq(alts[0].items);
      var body' := body + n + 1;
      && Laid(nfa, alts[1..], shape, q, chain + 1, body', lo, last)
      && At(nfa, body, CodeSeq(alts[0].items, body, last + 1)) && nfa.states[body + n] == Split(last + 1, last + 1)
      && body + n < last
      && chain < |nfa.states| && nfa.states[chain] == Split(body, Head(alts[1..], chain + 1, body', last + 1))
  {
    hide LenSeq, CodeSeq, Code, Chain, Bodies, LenBodies, At, EndsIn;
    EndsRest(alts, shape);
    ChainLayout(nfa, alts, chain, body, last + 1);
    LastHasCode(alts[1..], shape);
    var n := LenSeq(alts[0].items);
    var a, jump, rest := CodeSeq(alts[0].items, body, last + 1), [Split(last + 1, last + 1)], Bodies(alts[1..], body + n + 1, last + 1);
    BodiesSplit(alts, body, last + 1);
    ButLast(a, jump, rest);
    AtSplit(nfa, body, a, jump + rest[..|rest| - 1]);
    AtSplit(nfa, body + n, jump, rest[..|rest| - 1]);
    AtState(nfa, body + n, jump, 0);
  }

  lemma BodiesSplit(alts: seq<Branch>, body: nat, exit: nat)
    requires |alts| > 1
    ensures var n := LenSeq(alts[0].items);
      && Bodies(alts, body, exit) == CodeSeq(alts[0].items, body, exit) + [Split(exit, exit)] + Bodies(alts[1..], body + n + 1, exit)
      && LenBodies(alts) == n + 1 + LenBodies(alts[1..])
  {
    hide LenSeq, CodeSeq;
  }

  lemma ButLast(a: seq<NfaState>, b: seq<NfaState>, c: seq<NfaState>)
    requires c != []
    ensures (a + b + c)[..|a + b + c| - 1] == a + (b + c[..|c| - 1])
  {
  }

  lemma {:induction false} LastHasCode(alts: seq<Branch>, shape: Shape)
    requires EndsIn(alts, shape)
    ensures LenBodies(alts) > 0
  {
    var items := alts[|alts|-1].items;
    assert items == items[..|items|-1] + [Atom(shape, Once, false)];
    SeqAppend(items[..|items|-1], Atom(shape, Once, false), 0, 0);
    if |alts| > 1 { EndsRest(alts, shape); LastHasCode(alts[1..], shape); }
  }

  // The last alternative: what comes before its last character leads to the quantified character.
  lemma LaidLast(nfa: Nfa, alts: seq<Branch>, shape: Shape, q: Quant, chain: nat, body: nat, lo: nat, last: nat)
    requires Laid(nfa, alts, shape, q, chain, body, lo, last) && |alts| == 1
    ensures var items := alts[0].items;
      var before := items[..|items|-1];
      && WellSeq(before) && RegularSeq(before) && WellShape(shape)
      && body + LenSeq(before) == last && At(nfa, body, CodeSeq(before, body, last))
      && Head(alts, chain, body, last + 1) == Entry(before, body, last)
  {
    LastParts(alts, shape);
    hide Code, EndsIn, CodeSeq, LenSeq, Bodies, LenBodies, Chain, At, WellSeq, RegularSeq;
    var items := alts[0].items;
    var before, x := items[..|items|-1], Atom(shape, Once, false);
    SeqAppend(before, x, body, last + 1);
    OneBody(alts, body, last + 1);
    assert Len(x) == 1;
    DropLast(CodeSeq(before, body, last), Code(x, last, last + 1));
  }

  lemma LastParts(alts: seq<Branch>, shape: Shape)
    requires EndsIn(alts, shape) && |alts| == 1
    ensures var items := alts[0].items;
      items != [] && items == items[..|items|-1] + [Atom(shape, Once, false)]
      && WellSeq(items[..|items|-1]) && RegularSeq(items[..|items|-1]) && WellShape(shape)
  {
    var items := alts[0].items;
    assert items == items[..|items|-1] + [Atom(shape, Once, false)];
    SeqPrefix(items[..|items|-1], Atom(shape, Once, false));
  }

  lemma DropLast(a: seq<NfaState>, b: seq<NfaState>)
    requires |b| == 1
    ensures (a + b)[..|a + b| - 1] == a
  {
  }

  lemma {:induction false} ReboundExact(nfa: Nfa, text: string, alts: seq<Branch>, shape: Shape, q: Quant, chain: nat, body: nat, lo: nat, last: nat, i: nat, j: nat)
    requires Laid(nfa, alts, shape, q, chain, body, lo, last)
    ensures Goes(nfa, text, lo, last + 2, Head(alts, chain, body, last + 1), i, last + 2, j)
      <==> MatchesAlts(nfa.word, text, Rebound(alts, shape, q), i, j)
    decreases |alts|
  {
    hide Goes, MatchesAlts, MatchesSeq, Code, CodeSeq, LenSeq, Laid, EndsIn;
    var rebound := Rebound(alts, shape, q);
    NonEmpty(nfa, alts, shape, q, chain, body, lo, last);
    AltsMean(nfa.word, text, rebound, i, j);
    if |alts| == 1 {
      var items := alts[0].items;
      LaidLast(nfa, alts, shape, q, chain, body, lo, last);
      RunsInto(nfa, text, items[..|items|-1], shape, q, true, body, lo, last, i, j);
    } else {
      var n := LenSeq(alts[0].items);
      LaidParts(nfa, alts, shape, q, chain, body, lo, last);
      ReboundExact(nfa, text, alts[1..], shape, q, chain + 1, body + n + 1, lo, last, i, j);
      assert rebound[1..] == Rebound(alts[1..], shape, q);
      GoesSplit(nfa, text, lo, last + 2, chain, i, body, Head(alts[1..], chain + 1, body + n + 1, last + 1), last + 2, j);
      RunsInto(nfa, text, alts[0].items, shape, q, false, body, lo, last, i, j);
      if n == 0 {
        GoesSplit(nfa, text, lo, last + 2, body, i, last + 1, last + 1, last + 2, j);
      }
    }
  }

  lemma NonEmpty(nfa: Nfa, alts: seq<Branch>, shape: Shape, q: Quant, chain: nat, body: nat, lo: nat, last: nat)
    requires Laid(nfa, alts, shape, q, chain, body, lo, last)
    ensures alts != [] && alts[|alts|-1].items != [] && !q.Once? && lo <= chain && last + 2 <= |nfa.states|
    ensures lo <= body && chain + |alts| - 1 <= body && body + LenBodies(alts) == last + 1
    ensures WellShape(shape) && At(nfa, last, Code(Atom(shape, q, false), last, last + 2))
    ensures |alts| > 1 ==> WellSeq(alts[0].items) && RegularSeq(alts[0].items)
  {
    LastWell(alts, shape);
    if |alts| > 1 { EndsRest(alts, shape); }
  }

  lemma {:induction false} LastWell(alts: seq<Branch>, shape: Shape)
    requires EndsIn(alts, shape)
    ensures WellShape(shape)
    decreases |alts|
  {
    if |alts| == 1 {
      var items := alts[0].items;
      assert items == items[..|items|-1] + [Atom(shape, Once, false)];
      SeqPrefix(items[..|items|-1], Atom(shape, Once, false));
    } else {
      EndsRest(alts, shape);
      LastWell(alts[1..], shape);
    }
  }

  // ---- the whole automaton ----

  predicate NoAccept(code: seq<NfaState>) {
    forall i | 0 <= i < |code| :: !code[i].Accept?
  }

  lemma {:induction false} ItemNoAccept(it: Item, b: nat, exit: nat)
    ensures NoAccept(Code(it, b, exit))
    decreases it, 1
  {
    hide CodeAlts, LenAlts, NodeOf, Requantified;
    if it.Group? {
      var end := if it.quant.Once? then exit else b + LenAlts(it.alts);
      AltsNoAccept(it.alts, b, end);
      if !it.quant.Once? && LenAlts(it.alts) > 0 { QuantNoAccept(CodeAlts(it.alts, b, end), b, it.quant, exit); }
    }
  }

  lemma QuantNoAccept(code: seq<NfaState>, b: nat, q: Quant, exit: nat)
    requires code != [] && NoAccept(code)
    ensures NoAccept(Requantified(code, b, q, exit))
  {
  }

  lemma {:induction false} SeqNoAccept(items: seq<Item>, b: nat, exit: nat)
    ensures NoAccept(CodeSeq(items, b, exit))
    decreases items, 0
  {
    hide Code;
    if items != [] {
      var mid := b + Len(items[0]);
      ItemNoAccept(items[0], b, Entry(items[1..], mid, exit));
      SeqNoAccept(items[1..], mid, exit);
    }
  }

  lemma {:induction false} AltsNoAccept(alts: seq<Branch>, b: nat, exit: nat)
    ensures NoAccept(CodeAlts(alts, b, exit))
    decreases alts, 2
  {
    hide Chain, Bodies;
    if alts != [] {
      ChainNoAccept(alts, b, b + |alts| - 1, exit);
      BodiesNoAccept(alts, b + |alts| - 1, exit);
    }
  }

  lemma {:induction false} ChainNoAccept(alts: seq<Branch>, chain: nat, body: nat, exit: nat)
    requires alts != []
    ensures NoAccept(Chain(alts, chain, body, exit))
    decreases |alts|
  {
    if |alts| > 1 { ChainNoAccept(alts[1..], chain + 1, body + LenSeq(alts[0].items) + 1, exit); }
  }

  lemma {:induction false} BodiesNoAccept(alts: seq<Branch>, body: nat, exit: nat)
    ensures NoAccept(Bodies(alts, body, exit))
    decreases alts, 1
  {
    hide CodeSeq;
    if alts != [] {
      SeqNoAccept(alts[0].items, body, exit);
      if |alts| > 1 { BodiesNoAccept(alts[1..], body + LenSeq(alts[0].items) + 1, exit); }
    }
  }

  lemma {:induction false} LastState(alts: seq<Branch>, shape: Shape, body: nat, exit: nat)
    requires EndsIn(alts, shape)
    ensures var code := Bodies(alts, body, exit); code != [] && code[|code|-1] == Match(NodeOf(shape), exit)
    decreases |alts|
  {
    hide CodeSeq, LenSeq, NodeOf;
    if |alts| == 1 {
      var items := alts[0].items;
      var before, x := items[..|items|-1], Atom(shape, Once, false);
      assert items == before + [x];
      SeqAppend(before, x, body, exit);
      OneBody(alts, body, exit);
    } else {
      EndsRest(alts, shape);
      BodiesSplit(alts, body, exit);
      LastState(alts[1..], shape, body + LenSeq(alts[0].items) + 1, exit);
    }
  }

  // The pattern that is one quantified group.
  function GroupAlone(inner: seq<Branch>, capturing: bool, q: Quant, lazy: bool): seq<Branch> {
    [Branch([Group(inner, capturing, q, lazy)])]
  }

  lemma AloneCode(inner: seq<Branch>, capturing: bool, q: Quant, lazy: bool)
    requires !q.Once? && LenAlts(inner) > 0
    ensures var m := LenAlts(inner);
      CodeAll(GroupAlone(inner, capturing, q, lazy)) == Requantified(CodeAlts(inner, 0, m), 0, q, m + 1) + [Accept]
  {
    hide Requantified;
    var it, m := Group(inner, capturing, q, lazy), LenAlts(inner);
    var alts := GroupAlone(inner, capturing, q, lazy);
    OneBody(alts, 0, m + 1);
    assert [it][1..] == [];
    assert LenSeq([it]) == m + 1;
    assert CodeSeq([it], 0, m + 1) == Code(it, 0, m + 1) + [];
    assert Chain(alts, 0, 0, m + 1) == [];
    assert CodeAlts(alts, 0, m + 1) == [] + CodeSeq([it], 0, m + 1);
  }

  lemma AloneLaid(inner: seq<Branch>, capturing: bool, q: Quant, lazy: bool, shape: Shape, word: char -> bool)
    requires EndsIn(inner, shape) && !q.Once?
    ensures var nfa := Nfa(CodeAll(GroupAlone(inner, capturing, q, lazy)), word);
      && inner != [] && LenAlts(inner) > 0 && |nfa.states| == LenAlts(inner) + 2
      && Laid(nfa, inner, shape, q, 0, |inner| - 1, 0, LenAlts(inner) - 1)
  {
    hide Chain, Bodies, LenBodies, EndsIn, NodeOf;
    var k := |inner|;
    LastHasCode(inner, shape);
    NotEmpty(inner, shape);
    var m := LenAlts(inner);
    var chain, bodies := Chain(inner, 0, k - 1, m), Bodies(inner, k - 1, m);
    LastState(inner, shape, k - 1, m);
    AloneCode(inner, capturing, q, lazy);
    var code := CodeAlts(inner, 0, m);
    assert code == chain + bodies;
    var last := m - 1;
    assert code[last] == bodies[|bodies| - 1] && code[..last] == chain + bodies[..|bodies| - 1];
    var quant := Code(Atom(shape, q, false), last, last + 2);
    var nfa := Nfa(CodeAll(GroupAlone(inner, capturing, q, lazy)), word);
    assert Requantified(code, 0, q, m + 1) == code[..last] + quant;
    Pieces(nfa, chain, bodies[..|bodies| - 1], quant);
  }

  lemma NotEmpty(alts: seq<Branch>, shape: Shape)
    requires EndsIn(alts, shape)
    ensures alts != []
  {
  }

  lemma Pieces(nfa: Nfa, a: seq<NfaState>, b: seq<NfaState>, c: seq<NfaState>)
    requires nfa.states == a + b + c + [Accept]
    ensures At(nfa, 0, a) && At(nfa, |a|, b) && At(nfa, |a| + |b|, c)
  {
    assert nfa.states[0..|a|] == a;
    assert nfa.states[|a|..|a| + |b|] == b;
    assert nfa.states[|a| + |b|..|a| + |b| + |c|] == c;
  }

  // The automaton of a quantified group accepts what the rebound alternatives denote.
  lemma QuantifiedGroup(inner: seq<Branch>, capturing: bool, q: Quant, lazy: bool, shape: Shape, word: char -> bool, text: string, i: nat, j: nat)
    requires EndsIn(inner, shape) && !q.Once?
    ensures Accepts(Nfa(CodeAll(GroupAlone(inner, capturing, q, lazy)), word), text, i, j)
      <==> MatchesAlts(word, text, Rebound(inner, shape, q), i, j)
  {
    hide CodeAll, LenAlts, MatchesAlts, Goes, Accepts, EndsIn, Rebound;
    AloneLaid(inner, capturing, q, lazy, shape, word);
    AloneGoes(inner, capturing, q, lazy, shape, word, text, i, j);
    AloneAccepts(inner, capturing, q, lazy, shape, word, text, i, j);
  }

  lemma AloneGoes(inner: seq<Branch>, capturing: bool, q: Quant, lazy: bool, shape: Shape, word: char -> bool, text: string, i: nat, j: nat)
    requires EndsIn(inner, shape) && !q.Once?
    ensures var m := LenAlts(inner);
      Goes(Nfa(CodeAll(GroupAlone(inner, capturing, q, lazy)), word), text, 0, m + 1, 0, i, m + 1, j)
      <==> MatchesAlts(word, text, Rebound(inner, shape, q), i, j)
  {
    NotEmpty(inner, shape);
    hide CodeAll, Laid, LenAlts, MatchesAlts, Goes, EndsIn, LenBodies, Head, Rebound, At, Code, WellSeq, RegularSeq, WellShape;
    var nfa, m := Nfa(CodeAll(GroupAlone(inner, capturing, q, lazy)), word), LenAlts(inner);
    AloneLaid(inner, capturing, q, lazy, shape, word);
    HeadHere(inner, shape);
    ReboundExact(nfa, text, inner, shape, q, 0, |inner| - 1, 0, m - 1, i, j);
  }

  lemma AloneAccepts(inner: seq<Branch>, capturing: bool, q: Quant, lazy: bool, shape: Shape, word: char -> bool, text: string, i: nat, j: nat)
    requires EndsIn(inner, shape) && !q.Once?
    ensures var nfa, m := Nfa(CodeAll(GroupAlone(inner, capturing, q, lazy)), word), LenAlts(inner);
      Accepts(nfa, text, i, j) <==> Goes(nfa, text, 0, m + 1, 0, i, m + 1, j)
  {
    hide CodeAll, Laid, LenAlts, Goes, Accepts, EndsIn;
    var nfa, m := Nfa(CodeAll(GroupAlone(inner, capturing, q, lazy)), word), LenAlts(inner);
    AloneLaid(inner, capturing, q, lazy, shape, word);
    LastAccepts(GroupAlone(inner, capturing, q, lazy), word);
    AcceptGoes(nfa, text, m + 1, i, j);
  }

  lemma HeadHere(inner: seq<Branch>, shape: Shape)
    requires EndsIn(inner, shape)
    ensures Head(inner, 0, |inner| - 1, LenAlts(inner)) == 0
  {
  }

  lemma LastAccepts(alts: seq<Branch>, word: char -> bool)
    ensures var nfa := Nfa(CodeAll(alts), word);
      forall q: nat | q < |nfa.states| :: nfa.states[q].Accept? <==> q == |nfa.states| - 1
  {
    hide CodeAlts;
    AltsNoAccept(alts, 0, LenAlts(alts));
  }
}
