// The automaton code of a regular expression accepts exactly what the
// expression denotes, wherever the code is placed.
module RegexExact {
  import opened RegexNfa
  import opened RegexCode
  import opened RegexPaths

  // The stretch of code walks from its entry to `exit` exactly over the stretches of text in the denotation.
  ghost predicate ExactItem(nfa: Nfa, text: string, it: Item, base: nat, exit: nat) {
    && Sealed(nfa, base, base + Len(it), exit)
    && forall i: nat, j: nat :: ItemAgrees(nfa, text, it, base, exit, i, j)
  }

  ghost predicate ItemAgrees(nfa: Nfa, text: string, it: Item, base: nat, exit: nat, i: nat, j: nat) {
    Goes(nfa, text, base, base + Len(it), if Len(it) == 0 then exit else base, i, exit, j) <==> Matches(nfa.word, text, it, i, j)
  }

  ghost predicate ExactSeq(nfa: Nfa, text: string, items: seq<Item>, base: nat, exit: nat) {
    && Sealed(nfa, base, base + LenSeq(items), exit)
    && forall i: nat, j: nat :: SeqAgrees(nfa, text, items, base, exit, i, j)
  }

  ghost predicate SeqAgrees(nfa: Nfa, text: string, items: seq<Item>, base: nat, exit: nat, i: nat, j: nat) {
    Goes(nfa, text, base, base + LenSeq(items), Entry(items, base, exit), i, exit, j) <==> MatchesSeq(nfa.word, text, items, i, j)
  }

  lemma ItemAt(nfa: Nfa, text: string, it: Item, base: nat, exit: nat, i: nat, j: nat)
    requires ExactItem(nfa, text, it, base, exit)
    ensures Goes(nfa, text, base, base + Len(it), if Len(it) == 0 then exit else base, i, exit, j)
      <==> Matches(nfa.word, text, it, i, j)
  {
    hide Goes, Matches, Sealed;
    var agrees := ItemAgrees(nfa, text, it, base, exit, i, j);
    assert agrees;
  }

  lemma SeqAt(nfa: Nfa, text: string, items: seq<Item>, base: nat, exit: nat, i: nat, j: nat)
    requires ExactSeq(nfa, text, items, base, exit)
    ensures Goes(nfa, text, base, base + LenSeq(items), Entry(items, base, exit), i, exit, j)
      <==> MatchesSeq(nfa.word, text, items, i, j)
  {
    hide Goes, MatchesSeq, Sealed;
    var agrees := SeqAgrees(nfa, text, items, base, exit, i, j);
    assert agrees;
  }

  // ---- single characters ----

  lemma MoveRead(nfa: Nfa, text: string, q: nat, i: nat, m: nat)
    requires q < |nfa.states| && nfa.states[q].Match? && !nfa.states[q].node.Assert?
    ensures Move(nfa, text, q, i, nfa.states[q].next, m) <==> One(nfa.states[q].node, text, i, m)
  {
  }

  lemma OnceExact(nfa: Nfa, text: string, it: Item, node: Node, base: nat, exit: nat)
    requires it.Atom? && it.quant.Once? && node == NodeOf(it.shape)
    requires !node.Assert? && base != exit && base < |nfa.states| && nfa.states[base] == Match(node, exit)
    ensures ExactItem(nfa, text, it, base, exit)
  {
    forall i: nat, j: nat ensures ItemAgrees(nfa, text, it, base, exit, i, j) {
      GoesOut(nfa, text, base, base + 1, base, i, exit, j);
      MoveRead(nfa, text, base, i, j);
    }
  }

  lemma ZeroExact(nfa: Nfa, text: string, a: Anchor, base: nat, exit: nat)
    requires base != exit && base < |nfa.states| && nfa.states[base] == Match(Assert(a), exit)
    ensures ExactItem(nfa, text, Zero(a), base, exit)
  {
    forall i: nat, j: nat ensures ItemAgrees(nfa, text, Zero(a), base, exit, i, j) {
      GoesOut(nfa, text, base, base + 1, base, i, exit, j);
      assert Move(nfa, text, base, i, exit, j) <==> i == j && Holds(nfa.word, a, text, i);
    }
  }

  lemma OptionalExact(nfa: Nfa, text: string, it: Item, node: Node, base: nat, exit: nat)
    requires it.Atom? && it.quant.Optional? && node == NodeOf(it.shape)
    requires !node.Assert? && base + 2 <= |nfa.states| && !(base <= exit < base + 2)
    requires nfa.states[base] == Split(base + 1, exit) && nfa.states[base + 1] == Match(node, exit)
    ensures ExactItem(nfa, text, it, base, exit)
  {
    forall i: nat, j: nat ensures ItemAgrees(nfa, text, it, base, exit, i, j) {
      GoesSplit(nfa, text, base, base + 2, base, i, base + 1, exit, exit, j);
      GoesOutside(nfa, text, base, base + 2, exit, i, exit, j);
      GoesOut(nfa, text, base, base + 2, base + 1, i, exit, j);
      MoveRead(nfa, text, base + 1, i, j);
    }
    assert Sealed(nfa, base, base + 2, exit) by { SealTwo(nfa, base, exit); }
  }

  lemma SealTwo(nfa: Nfa, base: nat, exit: nat)
    requires base + 2 <= |nfa.states| && !(base <= exit < base + 2)
    requires Targets(nfa.states[base], base, base + 2, exit) && Targets(nfa.states[base + 1], base, base + 2, exit)
    ensures Sealed(nfa, base, base + 2, exit)
  {
    forall q: nat | base <= q < base + 2 ensures Targets(nfa.states[q], base, base + 2, exit) {
      assert q == base || q == base + 1;
    }
  }

  lemma ManyStep(node: Node, text: string, i: nat, j: nat)
    ensures Many(node, text, i, j) <==> i == j || (One(node, text, i, i + 1) && Many(node, text, i + 1, j))
  {
    if i != j && One(node, text, i, i + 1) && Many(node, text, i + 1, j) {
      forall k | i <= k < j ensures k < |text| && MatchNode(node, text[k]) {
      }
    }
  }

  // The loop of a starred character: split at `s`, character at `c`.
  lemma {:induction false} LoopExact(nfa: Nfa, text: string, node: Node, lo: nat, s: nat, c: nat, exit: nat, i: nat, j: nat)
    requires !node.Assert? && lo + 2 <= |nfa.states| && !(lo <= exit < lo + 2) && lo <= s < lo + 2 && lo <= c < lo + 2
    requires nfa.states[s] == Split(c, exit) && nfa.states[c] == Match(node, s)
    ensures Goes(nfa, text, lo, lo + 2, s, i, exit, j) <==> Many(node, text, i, j)
    decreases |text| - i
  {
    GoesSplit(nfa, text, lo, lo + 2, s, i, c, exit, exit, j);
    GoesOutside(nfa, text, lo, lo + 2, exit, i, exit, j);
    LoopBody(nfa, text, node, lo, s, c, exit, i, j);
    ManyStep(node, text, i, j);
    if i < |text| {
      LoopExact(nfa, text, node, lo, s, c, exit, i + 1, j);
    }
  }

  lemma LoopBody(nfa: Nfa, text: string, node: Node, lo: nat, s: nat, c: nat, exit: nat, i: nat, j: nat)
    requires !node.Assert? && lo + 2 <= |nfa.states| && !(lo <= exit < lo + 2) && lo <= s < lo + 2 && lo <= c < lo + 2
    requires nfa.states[c] == Match(node, s)
    ensures Goes(nfa, text, lo, lo + 2, c, i, exit, j)
      <==> One(node, text, i, i + 1) && Goes(nfa, text, lo, lo + 2, s, i + 1, exit, j)
  {
    GoesMatch(nfa, text, lo, lo + 2, c, i, exit, j);
    forall m: nat ensures Move(nfa, text, c, i, s, m) <==> One(node, text, i, m) {
      MoveRead(nfa, text, c, i, m);
    }
  }

  lemma StarExact(nfa: Nfa, text: string, it: Item, node: Node, base: nat, exit: nat)
    requires it.Atom? && it.quant.Star? && node == NodeOf(it.shape)
    requires !node.Assert? && base + 2 <= |nfa.states| && !(base <= exit < base + 2)
    requires nfa.states[base] == Split(base + 1, exit) && nfa.states[base + 1] == Match(node, base)
    ensures ExactItem(nfa, text, it, base, exit)
  {
    forall i: nat, j: nat ensures ItemAgrees(nfa, text, it, base, exit, i, j) {
      LoopExact(nfa, text, node, base, base, base + 1, exit, i, j);
    }
    SealTwo(nfa, base, exit);
  }

  lemma PlusExact(nfa: Nfa, text: string, it: Item, node: Node, base: nat, exit: nat)
    requires it.Atom? && it.quant.Plus? && node == NodeOf(it.shape)
    requires !node.Assert? && base + 2 <= |nfa.states| && !(base <= exit < base + 2)
    requires nfa.states[base] == Match(node, base + 1) && nfa.states[base + 1] == Split(base, exit)
    ensures ExactItem(nfa, text, it, base, exit)
  {
    forall i: nat, j: nat ensures ItemAgrees(nfa, text, it, base, exit, i, j) {
      LoopBody(nfa, text, node, base, base + 1, base, exit, i, j);
      LoopExact(nfa, text, node, base, base + 1, base, exit, i + 1, j);
      ManyStep(node, text, i, j);
    }
    SealTwo(nfa, base, exit);
  }

  // ---- sequences, groups, alternatives ----

  lemma AtomExact(nfa: Nfa, text: string, it: Item, base: nat, exit: nat)
    requires Well(it) && !it.Group? && At(nfa, base, Code(it, base, exit)) && !(base <= exit < base + Len(it))
    ensures ExactItem(nfa, text, it, base, exit)
  {
    hide ExactItem;
    match it
    case Atom(shape, q, _) =>
      var node := NodeOf(shape);
      ShapeReads(shape);
      AtState(nfa, base, Code(it, base, exit), 0);
      if !q.Once? { AtState(nfa, base, Code(it, base, exit), 1); }
      match q {
        case Once => OnceExact(nfa, text, it, node, base, exit);
        case Star => StarExact(nfa, text, it, node, base, exit);
        case Plus => PlusExact(nfa, text, it, node, base, exit);
        case Optional => OptionalExact(nfa, text, it, node, base, exit);
      }
    case Zero(a) =>
      AtState(nfa, base, Code(it, base, exit), 0);
      ZeroExact(nfa, text, a, base, exit);
  }

  lemma {:induction false} ItemExact(nfa: Nfa, text: string, it: Item, base: nat, exit: nat)
    requires Well(it) && Regular(it) && At(nfa, base, Code(it, base, exit)) && !(base <= exit < base + Len(it))
    ensures ExactItem(nfa, text, it, base, exit)
    decreases it, 1
  {
    hide ExactItem, Code, Len, At;
    if !it.Group? {
      AtomExact(nfa, text, it, base, exit);
    } else if it.quant.Once? {
      GroupCode(it, base, exit);
      AltsExact(nfa, text, it.alts, base, exit);
      GroupExact(nfa, text, it, base, exit);
    } else {
      QuantExact(nfa, text, it, base, exit);
    }
  }

  lemma GroupCode(it: Item, base: nat, exit: nat)
    requires it.Group? && it.quant.Once?
    ensures Len(it) == LenAlts(it.alts) && Code(it, base, exit) == CodeAlts(it.alts, base, exit)
  {
  }

  lemma QuantExact(nfa: Nfa, text: string, it: Item, base: nat, exit: nat)
    requires Well(it) && it.Group? && !it.quant.Once? && OneAtom(it.alts)
    requires At(nfa, base, Code(it, base, exit)) && !(base <= exit < base + Len(it))
    ensures ExactItem(nfa, text, it, base, exit)
  {
    hide ExactItem, Code, Len, At;
    var one := Atom(it.alts[0].items[0].shape, it.quant, false);
    OneAtomCode(it, base, exit);
    OneAtomWell(it);
    AtomExact(nfa, text, one, base, exit);
    OneAtomExact(nfa, text, it, base, exit);
  }

  // ---- a quantified group of one character is the quantified character ----

  lemma OneAtomCode(it: Item, base: nat, exit: nat)
    requires it.Group? && !it.quant.Once? && OneAtom(it.alts)
    ensures var one := Atom(it.alts[0].items[0].shape, it.quant, false);
      Len(it) == Len(one) && Code(it, base, exit) == Code(one, base, exit)
  {
    hide NodeOf, CodeAlts, LenAlts;
    OneAtomInner(it.alts, base);
  }

  lemma OneAtomInner(alts: seq<Branch>, base: nat)
    requires OneAtom(alts)
    ensures LenAlts(alts) == 1 && CodeAlts(alts, base, base + 1) == [Match(NodeOf(alts[0].items[0].shape), base + 1)]
  {
    hide NodeOf;
    var items := alts[0].items;
    assert items[1..] == [];
    assert CodeSeq(items, base, base + 1) == [Match(NodeOf(items[0].shape), base + 1)];
    OneBody(alts, base, base + 1);
  }

  lemma OneAtomWell(it: Item)
    requires Well(it) && it.Group? && !it.quant.Once? && OneAtom(it.alts)
    ensures Well(Atom(it.alts[0].items[0].shape, it.quant, false))
  {
    assert WellSeq(it.alts[0].items) && Well(it.alts[0].items[0]);
  }

  lemma OneAtomOnce(word: char -> bool, text: string, alts: seq<Branch>, i: nat, j: nat)
    requires OneAtom(alts)
    ensures MatchesAlts(word, text, alts, i, j) <==> One(NodeOf(alts[0].items[0].shape), text, i, j)
  {
    var items := alts[0].items;
    assert items[1..] == [] && alts[1..] == [];
    if MatchesSeq(word, text, items, i, j) {
      var m := SeqSplit(word, text, items, i, j);
    }
    if One(NodeOf(items[0].shape), text, i, j) {
      SeqJoined(word, text, items, i, j, j);
    }
  }

  lemma {:induction false} OneAtomRepeats(word: char -> bool, text: string, alts: seq<Branch>, n: nat, i: nat, j: nat)
    requires OneAtom(alts)
    ensures Repeats(word, text, alts, n, i, j) <==> j == i + n && Many(NodeOf(alts[0].items[0].shape), text, i, j)
    decreases n
  {
    hide MatchesAlts;
    var node := NodeOf(alts[0].items[0].shape);
    if n > 0 {
      ManyStep(node, text, i, j);
      forall m: nat ensures MatchesAlts(word, text, alts, i, m) <==> One(node, text, i, m) {
        OneAtomOnce(word, text, alts, i, m);
      }
      OneAtomRepeats(word, text, alts, n - 1, i + 1, j);
    }
  }

  lemma OneAtomMatches(word: char -> bool, text: string, it: Item, i: nat, j: nat)
    requires it.Group? && !it.quant.Once? && OneAtom(it.alts)
    ensures Matches(word, text, it, i, j) <==> MatchesLeaf(word, text, Atom(it.alts[0].items[0].shape, it.quant, false), i, j)
  {
    hide MatchesAlts, Repeats, Many;
    OneAtomOnce(word, text, it.alts, i, j);
    forall n: nat
      ensures Repeats(word, text, it.alts, n, i, j) <==> j == i + n && Many(NodeOf(it.alts[0].items[0].shape), text, i, j)
    {
      OneAtomRepeats(word, text, it.alts, n, i, j);
    }
    if i <= j { OneAtomRepeats(word, text, it.alts, j - i, i, j); }
    if Many(NodeOf(it.alts[0].items[0].shape), text, i, j) { ManyForward(NodeOf(it.alts[0].items[0].shape), text, i, j); }
  }

  lemma ManyForward(node: Node, text: string, i: nat, j: nat)
    requires Many(node, text, i, j)
    ensures i <= j
  {
  }

  lemma OneAtomExact(nfa: Nfa, text: string, it: Item, base: nat, exit: nat)
    requires it.Group? && !it.quant.Once? && OneAtom(it.alts)
    requires ExactItem(nfa, text, Atom(it.alts[0].items[0].shape, it.quant, false), base, exit)
    ensures ExactItem(nfa, text, it, base, exit)
  {
    hide Goes, Sealed, Matches, MatchesLeaf;
    var one := Atom(it.alts[0].items[0].shape, it.quant, false);
    OneAtomCode(it, base, exit);
    forall i: nat, j: nat ensures ItemAgrees(nfa, text, it, base, exit, i, j) {
      ItemAt(nfa, text, one, base, exit, i, j);
      OneAtomMatches(nfa.word, text, it, i, j);
      LeafMatches(nfa.word, text, one, i, j);
    }
  }

  lemma LeafMatches(word: char -> bool, text: string, it: Item, i: nat, j: nat)
    requires !it.Group?
    ensures Matches(word, text, it, i, j) <==> MatchesLeaf(word, text, it, i, j)
  {
  }

  lemma {:induction false} SeqExact(nfa: Nfa, text: string, items: seq<Item>, base: nat, exit: nat)
    requires WellSeq(items) && RegularSeq(items) && At(nfa, base, CodeSeq(items, base, exit)) && !(base <= exit < base + LenSeq(items))
    ensures ExactSeq(nfa, text, items, base, exit)
    decreases items, 0
  {
    if items == [] {
      forall i: nat, j: nat ensures SeqAgrees(nfa, text, items, base, exit, i, j) {
        GoesOutside(nfa, text, base, base, exit, i, exit, j);
      }
    } else {
      var it, rest := items[0], items[1..];
      var mid := base + Len(it);
      var next := Entry(rest, mid, exit);
      AtSplit(nfa, base, Code(it, base, next), CodeSeq(rest, mid, exit));
      ItemExact(nfa, text, it, base, next);
      SeqExact(nfa, text, rest, mid, exit);
      SeqJoin(nfa, text, items, base, exit);
    }
  }

  lemma SeqJoin(nfa: Nfa, text: string, items: seq<Item>, base: nat, exit: nat)
    requires items != [] && !(base <= exit < base + LenSeq(items))
    requires var mid := base + Len(items[0]);
      ExactItem(nfa, text, items[0], base, Entry(items[1..], mid, exit)) && ExactSeq(nfa, text, items[1..], mid, exit)
    ensures ExactSeq(nfa, text, items, base, exit)
  {
    hide Goes, Targets, Matches, MatchesSeq, SeqAgrees, ItemAgrees, Len, LenSeq;
    LenSeqMeans(items);
    var it, rest := items[0], items[1..];
    var mid, hi := base + Len(it), base + LenSeq(items);
    var next := Entry(rest, mid, exit);
    SealedJoin(nfa, base, mid, hi, next, exit);
    forall i: nat, j: nat ensures SeqAgrees(nfa, text, items, base, exit, i, j) {
      SeqJoinAt(nfa, text, items, base, exit, i, j);
    }
  }

  lemma SeqJoinAt(nfa: Nfa, text: string, items: seq<Item>, base: nat, exit: nat, i: nat, j: nat)
    requires items != [] && !(base <= exit < base + LenSeq(items))
    requires var mid := base + Len(items[0]);
      ExactItem(nfa, text, items[0], base, Entry(items[1..], mid, exit)) && ExactSeq(nfa, text, items[1..], mid, exit)
    ensures SeqAgrees(nfa, text, items, base, exit, i, j)
  {
    hide Goes, Targets, Len, LenSeq, Matches, MatchesSeq;
    LenSeqMeans(items);
    var it, rest := items[0], items[1..];
    var mid, hi := base + Len(it), base + LenSeq(items);
    var next := Entry(rest, mid, exit);
    var q := if Len(it) == 0 then next else base;
    assert q == Entry(items, base, exit);
    GoesSeq(nfa, text, base, mid, hi, q, i, next, exit, j);
    if m: nat :| Goes(nfa, text, base, mid, q, i, next, m) && Goes(nfa, text, mid, hi, next, m, exit, j) {
      ItemAt(nfa, text, it, base, next, i, m);
      SeqAt(nfa, text, rest, mid, exit, m, j);
      SeqJoined(nfa.word, text, items, i, m, j);
    }
    if MatchesSeq(nfa.word, text, items, i, j) {
      var m := SeqSplit(nfa.word, text, items, i, j);
      ItemAt(nfa, text, it, base, next, i, m);
      SeqAt(nfa, text, rest, mid, exit, m, j);
    }
  }

  ghost predicate ExactAlts(nfa: Nfa, text: string, alts: seq<Branch>, lo: nat, hi: nat, q: nat, exit: nat) {
    forall i: nat, j: nat :: Goes(nfa, text, lo, hi, q, i, exit, j) <==> MatchesAlts(nfa.word, text, alts, i, j)
  }

  lemma GroupExact(nfa: Nfa, text: string, it: Item, base: nat, exit: nat)
    requires it.Group? && it.quant.Once? && it.alts != [] && Sealed(nfa, base, base + Len(it), exit)
    requires ExactAlts(nfa, text, it.alts, base, base + Len(it), Head(it.alts, base, base + |it.alts| - 1, exit), exit)
    ensures ExactItem(nfa, text, it, base, exit)
  {
    hide Goes;
    var q := if Len(it) == 0 then exit else base;
    assert Len(it) == LenAlts(it.alts);
    assert |it.alts| == 1 ==> Len(it) == LenSeq(it.alts[0].items);
    assert q == Head(it.alts, base, base + |it.alts| - 1, exit);
    forall i: nat, j: nat ensures ItemAgrees(nfa, text, it, base, exit, i, j) {
    }
  }

  lemma {:induction false} AltsExact(nfa: Nfa, text: string, alts: seq<Branch>, base: nat, exit: nat)
    requires alts != [] && WellAlts(alts) && RegularAlts(alts) && At(nfa, base, CodeAlts(alts, base, exit)) && !(base <= exit < base + LenAlts(alts))
    ensures Sealed(nfa, base, base + LenAlts(alts), exit)
    ensures ExactAlts(nfa, text, alts, base, base + LenAlts(alts), Head(alts, base, base + |alts| - 1, exit), exit)
    decreases alts, 3
  {
    hide Targets, LenSeq, CodeSeq, Goes, MatchesAlts;
    var body := base + |alts| - 1;
    AtSplit(nfa, base, Chain(alts, base, body, exit), Bodies(alts, body, exit));
    BodiesSealed(nfa, text, alts, body, exit);
    ChainSealed(nfa, alts, base, body, base, base + LenAlts(alts), exit);
    SealedBoth(nfa, base, body, base + LenAlts(alts), exit);
    ChainExact(nfa, text, alts, base, body, base, base + LenAlts(alts), exit);
  }

  // Every state of the chain leads into the group.
  lemma {:induction false} ChainSealed(nfa: Nfa, alts: seq<Branch>, chain: nat, body: nat, lo: nat, hi: nat, exit: nat)
    requires alts != [] && At(nfa, chain, Chain(alts, chain, body, exit))
    requires lo <= chain && chain + |alts| - 1 <= body && body + LenBodies(alts) <= hi
    ensures forall q: nat | chain <= q < chain + |alts| - 1 :: Targets(nfa.states[q], lo, hi, exit)
    decreases |alts|
  {
    if |alts| > 1 {
      var body' := body + LenSeq(alts[0].items) + 1;
      var split := Split(body, Head(alts[1..], chain + 1, body', exit));
      AtSplit(nfa, chain, [split], Chain(alts[1..], chain + 1, body', exit));
      AtState(nfa, chain, [split], 0);
      ChainSealed(nfa, alts[1..], chain + 1, body', lo, hi, exit);
      EntryInside(alts[1].items, body', exit);
      forall q: nat | chain <= q < chain + |alts| - 1 ensures Targets(nfa.states[q], lo, hi, exit) {
        if q == chain {
          assert nfa.states[q] == split;
          assert alts[1..][0] == alts[1];
        }
      }
    }
  }

  lemma EntryInside(items: seq<Item>, base: nat, exit: nat)
    ensures Entry(items, base, exit) == exit || base <= Entry(items, base, exit) < base + LenSeq(items)
  {
  }

  lemma SealedBoth(nfa: Nfa, base: nat, body: nat, hi: nat, exit: nat)
    requires base <= body <= hi && Sealed(nfa, body, hi, exit) && !(base <= exit < hi)
    requires forall q: nat | base <= q < body :: Targets(nfa.states[q], base, hi, exit)
    ensures Sealed(nfa, base, hi, exit)
  {
    forall q: nat | base <= q < hi ensures Targets(nfa.states[q], base, hi, exit) {
      if q >= body { assert Targets(nfa.states[q], body, hi, exit); }
    }
  }

  // One alternative and, after it, a jump to the exit.
  lemma AltJump(nfa: Nfa, body: nat, n: nat, rest: nat, exit: nat)
    requires Sealed(nfa, body, body + n, exit) && Sealed(nfa, body + n + 1, rest, exit) && !(body <= exit < rest)
    requires nfa.states[body + n] == Split(exit, exit)
    ensures Sealed(nfa, body, rest, exit)
  {
    forall q: nat | body <= q < rest ensures Targets(nfa.states[q], body, rest, exit) {
      if q < body + n {
        assert Targets(nfa.states[q], body, body + n, exit);
      } else if q > body + n {
        assert Targets(nfa.states[q], body + n + 1, rest, exit);
      }
    }
  }

  lemma {:induction false} BodiesSealed(nfa: Nfa, text: string, alts: seq<Branch>, body: nat, exit: nat)
    requires alts != [] && WellAlts(alts) && RegularAlts(alts) && At(nfa, body, Bodies(alts, body, exit)) && !(body <= exit < body + LenBodies(alts))
    ensures Sealed(nfa, body, body + LenBodies(alts), exit)
    decreases alts, 1
  {
    hide SeqAgrees, CodeSeq, Targets, LenSeq, Bodies, At, LenBodies;
    assert |alts| == 1 ==> Bodies(alts, body, exit) == CodeSeq(alts[0].items, body, exit) && LenBodies(alts) == LenSeq(alts[0].items) by {
      OneBody(alts, body, exit);
    }
    var items := alts[0].items;
    if |alts| == 1 {
      SeqExact(nfa, text, items, body, exit);
    } else {
      var n := LenSeq(items);
      BodiesLayout(nfa, alts, body, exit);
      SeqExact(nfa, text, items, body, exit);
      BodiesSealed(nfa, text, alts[1..], body + n + 1, exit);
      AltJump(nfa, body, n, body + LenBodies(alts), exit);
    }
  }

  lemma OneBody(alts: seq<Branch>, body: nat, exit: nat)
    ensures |alts| == 1 ==> Bodies(alts, body, exit) == CodeSeq(alts[0].items, body, exit)
    ensures |alts| == 1 ==> LenBodies(alts) == LenSeq(alts[0].items)
  {
  }

  lemma BodiesLayout(nfa: Nfa, alts: seq<Branch>, body: nat, exit: nat)
    requires |alts| > 1 && At(nfa, body, Bodies(alts, body, exit))
    ensures var n := LenSeq(alts[0].items);
      && At(nfa, body, CodeSeq(alts[0].items, body, exit)) && At(nfa, body + n + 1, Bodies(alts[1..], body + n + 1, exit))
      && nfa.states[body + n] == Split(exit, exit)
      && LenBodies(alts) == n + 1 + LenBodies(alts[1..])
  {
    hide LenSeq, CodeSeq;
    var items := alts[0].items;
    var n := LenSeq(items);
    AtSplit(nfa, body, CodeSeq(items, body, exit) + [Split(exit, exit)], Bodies(alts[1..], body + n + 1, exit));
    AtSplit(nfa, body, CodeSeq(items, body, exit), [Split(exit, exit)]);
    AtState(nfa, body + n, [Split(exit, exit)], 0);
  }

  lemma ChainLayout(nfa: Nfa, alts: seq<Branch>, chain: nat, body: nat, exit: nat)
    requires |alts| > 1 && At(nfa, chain, Chain(alts, chain, body, exit))
    ensures var body' := body + LenSeq(alts[0].items) + 1;
      && chain < |nfa.states| && nfa.states[chain] == Split(body, Head(alts[1..], chain + 1, body', exit))
      && At(nfa, chain + 1, Chain(alts[1..], chain + 1, body', exit))
  {
    hide LenSeq;
    var body' := body + LenSeq(alts[0].items) + 1;
    var split := Split(body, Head(alts[1..], chain + 1, body', exit));
    AtSplit(nfa, chain, [split], Chain(alts[1..], chain + 1, body', exit));
    AtState(nfa, chain, [split], 0);
  }

  lemma AltsMean(word: char -> bool, text: string, alts: seq<Branch>, i: nat, j: nat)
    requires alts != []
    ensures |alts| == 1 ==> (MatchesAlts(word, text, alts, i, j) <==> MatchesSeq(word, text, alts[0].items, i, j))
    ensures MatchesAlts(word, text, alts, i, j)
      <==> MatchesSeq(word, text, alts[0].items, i, j) || MatchesAlts(word, text, alts[1..], i, j)
  {
  }

  // From the head of the chain for `alts`, inside the whole group [lo, hi).
  lemma {:induction false} ChainExact(nfa: Nfa, text: string, alts: seq<Branch>, chain: nat, body: nat, lo: nat, hi: nat, exit: nat)
    requires alts != [] && WellAlts(alts) && RegularAlts(alts) && !(lo <= exit < hi) && hi <= |nfa.states|
    requires At(nfa, chain, Chain(alts, chain, body, exit)) && At(nfa, body, Bodies(alts, body, exit))
    requires lo <= chain && chain + |alts| - 1 <= body && body + LenBodies(alts) <= hi
    ensures ExactAlts(nfa, text, alts, lo, hi, Head(alts, chain, body, exit), exit)
    decreases alts, 2
  {
    hide Goes, CodeSeq, Targets, LenSeq, Matches, MatchesSeq, MatchesAlts, Bodies, LenBodies, Chain, At, SeqAgrees;
    var items := alts[0].items;
    var n := LenSeq(items);
    OneBody(alts, body, exit);
    if |alts| == 1 {
      SeqExact(nfa, text, items, body, exit);
      forall i: nat, j: nat
        ensures Goes(nfa, text, lo, hi, Head(alts, chain, body, exit), i, exit, j) <==> MatchesAlts(nfa.word, text, alts, i, j)
      {
        AltsMean(nfa.word, text, alts, i, j);
        GoesPart(nfa, text, lo, hi, body, body + n, Entry(items, body, exit), i, exit, j);
        SeqAt(nfa, text, items, body, exit, i, j);
      }
    } else {
      var body' := body + n + 1;
      ChainLayout(nfa, alts, chain, body, exit);
      BodiesLayout(nfa, alts, body, exit);
      SeqExact(nfa, text, items, body, exit);
      ChainExact(nfa, text, alts[1..], chain + 1, body', lo, hi, exit);
      forall i: nat, j: nat
        ensures Goes(nfa, text, lo, hi, chain, i, exit, j) <==> MatchesAlts(nfa.word, text, alts, i, j)
      {
        AltsMean(nfa.word, text, alts, i, j);
        GoesSplit(nfa, text, lo, hi, chain, i, body, Head(alts[1..], chain + 1, body', exit), exit, j);
        BodyExact(nfa, text, items, body, lo, hi, exit, i, j);
      }
    }
  }

  // An empty alternative is entered at its jump.
  lemma BodyExact(nfa: Nfa, text: string, items: seq<Item>, body: nat, lo: nat, hi: nat, exit: nat, i: nat, j: nat)
    requires ExactSeq(nfa, text, items, body, exit) && lo <= body && body + LenSeq(items) < hi <= |nfa.states| && !(lo <= exit < hi)
    requires nfa.states[body + LenSeq(items)] == Split(exit, exit)
    ensures Goes(nfa, text, lo, hi, body, i, exit, j) <==> MatchesSeq(nfa.word, text, items, i, j)
  {
    hide Goes;
    assert SeqAgrees(nfa, text, items, body, exit, i, j);
    if LenSeq(items) == 0 {
      GoesSplit(nfa, text, lo, hi, body, i, exit, exit, exit, j);
      GoesOutside(nfa, text, lo, hi, exit, i, exit, j);
      GoesOutside(nfa, text, body, body, exit, i, exit, j);
    } else {
      GoesPart(nfa, text, lo, hi, body, body + LenSeq(items), body, i, exit, j);
    }
  }

  // ---- the whole automaton ----

  lemma {:induction false} PathWalk(nfa: Nfa, text: string, hi: nat, k: nat, q: nat, i: nat, to: nat, j: nat, k': nat, x: nat, y: nat)
    requires Path(nfa, text, k, q, i, to, j) && Walk(nfa, text, 0, hi, k', to, j, x, y)
    requires forall p: nat | hi <= p < |nfa.states| :: nfa.states[p].Accept?
    ensures Goes(nfa, text, 0, hi, q, i, x, y)
    decreases k
  {
    if k > 0 {
      var p: nat, m: nat :| Path(nfa, text, k - 1, q, i, p, m) && Move(nfa, text, p, m, to, j);
      assert p < hi;
      assert Walk(nfa, text, 0, hi, k' + 1, p, m, x, y);
      PathWalk(nfa, text, hi, k - 1, q, i, p, m, k' + 1, x, y);
    }
  }

  lemma {:induction false} WalkPath(nfa: Nfa, text: string, hi: nat, k: nat, q: nat, i: nat, to: nat, j: nat, s: nat, n: nat, k': nat)
    requires Walk(nfa, text, 0, hi, k, q, i, to, j) && Path(nfa, text, k', s, n, q, i)
    ensures exists k'' : nat :: Path(nfa, text, k'', s, n, to, j)
    decreases k
  {
    if k > 0 {
      var p: nat, m: nat :| Move(nfa, text, q, i, p, m) && Walk(nfa, text, 0, hi, k - 1, p, m, to, j);
      assert Path(nfa, text, k' + 1, s, n, p, m);
      WalkPath(nfa, text, hi, k - 1, p, m, to, j, s, n, k' + 1);
    }
  }

  // Compilation is exact: the automaton accepts text[start..end] if and only if the expression matches it there.
  lemma CompiledExact(alts: seq<Branch>, word: char -> bool, text: string, start: nat, end: nat)
    requires alts != [] && WellAlts(alts) && RegularAlts(alts)
    ensures Accepts(Nfa(CodeAll(alts), word), text, start, end) <==> MatchesAlts(word, text, alts, start, end)
  {
    hide Goes, MatchesAlts, CodeAlts;
    var n := LenAlts(alts);
    var nfa := Nfa(CodeAll(alts), word);
    assert nfa.states[0..n] == CodeAlts(alts, 0, n);
    AltsExact(nfa, text, alts, 0, n);
    var head := Head(alts, 0, |alts| - 1, n);
    assert head == 0 by { HeadZero(alts); }
    assert Goes(nfa, text, 0, n, 0, start, n, end) <==> MatchesAlts(word, text, alts, start, end);
    OnlyAccept(nfa, n);
    AcceptGoes(nfa, text, n, start, end);
  }

  lemma HeadZero(alts: seq<Branch>)
    requires alts != []
    ensures Head(alts, 0, |alts| - 1, LenAlts(alts)) == 0
  {
  }

  // No state but the last accepts.
  lemma OnlyAccept(nfa: Nfa, n: nat)
    requires |nfa.states| == n + 1 && Sealed(nfa, 0, n, n) && nfa.states[n].Accept?
    ensures forall q: nat | q <= n :: nfa.states[q].Accept? <==> q == n
  {
    forall q: nat | q < n ensures !nfa.states[q].Accept? {
      assert Targets(nfa.states[q], 0, n, n);
    }
  }

  lemma AcceptGoes(nfa: Nfa, text: string, n: nat, start: nat, end: nat)
    requires |nfa.states| == n + 1 && forall q: nat | q <= n :: nfa.states[q].Accept? <==> q == n
    ensures Accepts(nfa, text, start, end) <==> Goes(nfa, text, 0, n, 0, start, n, end)
  {
    if Accepts(nfa, text, start, end) {
      var q: nat :| Reaches(nfa, text, start, q, end) && nfa.states[q].Accept?;
      var k: nat :| Path(nfa, text, k, 0, start, q, end);
      assert Walk(nfa, text, 0, n, 0, n, end, n, end);
      PathWalk(nfa, text, n, k, 0, start, n, end, 0, n, end);
    }
    if Goes(nfa, text, 0, n, 0, start, n, end) {
      var k: nat :| Walk(nfa, text, 0, n, k, 0, start, n, end);
      assert Path(nfa, text, 0, 0, start, 0, start);
      WalkPath(nfa, text, n, k, 0, start, n, end, 0, start, 0);
      assert Reaches(nfa, text, start, n, end);
    }
  }
}
