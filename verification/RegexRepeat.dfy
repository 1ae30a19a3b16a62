// When a quantified group of plain characters does repeat, as its author meant, and when it does not.
module RegexRepeat {
  import opened RegexNfa
  import opened RegexCode
  import opened RegexText
  import opened RegexExact
  import opened RegexGroups

  function NodeAt(items: seq<Item>, k: nat): Node
    requires k < |items| && items[k].Atom?
  {
    NodeOf(items[k].shape)
  }

  // Characters without quantifiers.
  predicate PlainItems(items: seq<Item>) {
    forall k | 0 <= k < |items| :: items[k].Atom? && items[k].quant.Once? && !items[k].lazy && WellShape(items[k].shape)
  }

  // Alternatives of one plain character or more.
  predicate PlainAlts(alts: seq<Branch>) {
    alts != [] && forall k | 0 <= k < |alts| :: alts[k].items != [] && PlainItems(alts[k].items)
  }

  function LastAtom(alts: seq<Branch>): Item
    requires PlainAlts(alts)
  {
    var items := alts[|alts|-1].items;
    items[|items|-1]
  }

  predicate Spelled(items: seq<Item>, text: string, i: nat)
    requires PlainItems(items)
  {
    i + |items| <= |text| && forall k | 0 <= k < |items| :: MatchNode(NodeAt(items, k), text[i + k])
  }

  lemma {:induction false} PlainMatches(word: char -> bool, text: string, items: seq<Item>, i: nat, j: nat)
    requires PlainItems(items) && items != []
    ensures MatchesSeq(word, text, items, i, j) <==> j == i + |items| && Spelled(items, text, i)
    decreases items
  {
    hide NodeOf;
    var rest := items[1..];
    if MatchesSeq(word, text, items, i, j) {
      var m := SeqSplit(word, text, items, i, j);
      if rest != [] {
        PlainMatches(word, text, rest, m, j);
        forall k | 0 <= k < |items| ensures MatchNode(NodeAt(items, k), text[i + k]) {
          if k > 0 { assert MatchNode(NodeAt(rest, k - 1), text[m + (k - 1)]); }
        }
      }
    }
    if j == i + |items| && Spelled(items, text, i) {
      assert MatchNode(NodeAt(items, 0), text[i + 0]);
      if rest != [] {
        forall k | 0 <= k < |rest| ensures MatchNode(NodeAt(rest, k), text[i + 1 + k]) {
          assert MatchNode(NodeAt(items, k + 1), text[i + (k + 1)]);
        }
        PlainMatches(word, text, rest, i + 1, j);
      }
      SeqJoined(word, text, items, i, i + 1, j);
    }
  }

  lemma {:induction false} PlainWell(items: seq<Item>)
    requires PlainItems(items)
    ensures WellSeq(items) && RegularSeq(items)
  {
    if items != [] { PlainWell(items[1..]); }
  }

  lemma {:induction false} PlainEnds(alts: seq<Branch>)
    requires PlainAlts(alts)
    ensures EndsIn(alts, LastAtom(alts).shape)
  {
    PlainAltsWell(alts);
    assert PlainItems(alts[|alts|-1].items);
  }

  lemma {:induction false} PlainAltsWell(alts: seq<Branch>)
    requires forall k | 0 <= k < |alts| :: PlainItems(alts[k].items)
    ensures WellAlts(alts) && RegularAlts(alts)
  {
    if alts != [] {
      PlainWell(alts[0].items);
      PlainAltsWell(alts[1..]);
    }
  }

  // Some alternative matches.
  lemma {:induction false} AltsAt(word: char -> bool, text: string, alts: seq<Branch>, i: nat, j: nat)
    ensures MatchesAlts(word, text, alts, i, j) <==> exists k :: 0 <= k < |alts| && MatchesSeq(word, text, alts[k].items, i, j)
    decreases alts
  {
    hide MatchesSeq;
    if alts != [] {
      AltsAt(word, text, alts[1..], i, j);
      if MatchesAlts(word, text, alts[1..], i, j) {
        var k :| 0 <= k < |alts[1..]| && MatchesSeq(word, text, alts[1..][k].items, i, j);
        assert MatchesSeq(word, text, alts[k + 1].items, i, j);
      }
      if k :| 0 <= k < |alts| && MatchesSeq(word, text, alts[k].items, i, j) {
        if k > 0 { assert alts[1..][k - 1] == alts[k]; }
      }
    }
  }

  lemma {:induction false} ReboundAt(alts: seq<Branch>, shape: Shape, q: Quant, k: nat)
    requires k < |alts|
    ensures Rebound(alts, shape, q)[k].items
         == if k < |alts| - 1 then alts[k].items + [Atom(shape, Rest(q), false)]
            else (if alts[k].items == [] then [] else alts[k].items[..|alts[k].items|-1]) + [Atom(shape, q, false)]
    decreases |alts|
  {
    if |alts| > 1 && k > 0 { ReboundAt(alts[1..], shape, q, k - 1); }
  }

  // ---- agreement on one stretch of text ----

  ghost predicate Agrees(alts: seq<Branch>, capturing: bool, q: Quant, lazy: bool, word: char -> bool, text: string, i: nat, j: nat) {
    Accepts(Nfa(CodeAll(GroupAlone(alts, capturing, q, lazy)), word), text, i, j)
    <==> Matches(word, text, Group(alts, capturing, q, lazy), i, j)
  }

  // The automaton repeats the group: it accepts what the quantified group denotes, everywhere.
  ghost predicate RepeatsGroup(alts: seq<Branch>, capturing: bool, q: Quant, lazy: bool, word: char -> bool) {
    forall text: string, i: nat, j: nat :: Agrees(alts, capturing, q, lazy, word, text, i, j)
  }

  // No character matches.
  predicate Unread(it: Item)
    requires it.Atom?
  {
    forall ch: char :: !MatchNode(NodeOf(it.shape), ch)
  }

  predicate NeverMatches(items: seq<Item>)
    requires PlainItems(items)
  {
    exists k :: 0 <= k < |items| && Unread(items[k])
  }

  // Every character that `a` matches is one of `x`.
  predicate Within(a: Item, x: Item)
    requires a.Atom? && x.Atom?
  {
    forall ch: char :: MatchNode(NodeOf(a.shape), ch) ==> MatchNode(NodeOf(x.shape), ch)
  }

  // ---- one alternative under + ----

  // A text for which every character matches its item; `at` is matched by `ch`.
  lemma {:induction false} SomeText(items: seq<Item>, at: nat, ch: char) returns (text: string)
    requires PlainItems(items) && !NeverMatches(items) && (at < |items| ==> MatchNode(NodeAt(items, at), ch))
    ensures |text| == |items| && Spelled(items, text, 0) && (at < |items| ==> text[at] == ch)
    decreases items
  {
    hide NodeOf;
    if items == [] {
      text := "";
    } else {
      assert !Unread(items[0]);
      var c: char :| MatchNode(NodeOf(items[0].shape), c);
      if at == 0 { c := ch; }
      var rest := items[1..];
      forall k | 0 <= k < |rest| ensures !Unread(rest[k]) {
        assert rest[k] == items[k + 1] && !Unread(items[k + 1]);
      }
      var more := SomeText(rest, if at == 0 then |rest| else at - 1, ch);
      text := [c] + more;
      forall k | 0 <= k < |items| ensures MatchNode(NodeAt(items, k), text[0 + k]) {
        if k > 0 { assert MatchNode(NodeAt(rest, k - 1), more[0 + (k - 1)]); }
      }
    }
  }

  lemma SingleMatches(word: char -> bool, text: string, items: seq<Item>, i: nat, j: nat)
    requires PlainItems(items) && items != []
    ensures MatchesAlts(word, text, [Branch(items)], i, j) <==> j == i + |items| && Spelled(items, text, i)
  {
    hide MatchesSeq;
    AltsMean(word, text, [Branch(items)], i, j);
    PlainMatches(word, text, items, i, j);
  }

  // The lengths of repetitions: none, one, or at least two.
  lemma {:induction false} RepeatLength(word: char -> bool, text: string, items: seq<Item>, n: nat, i: nat, j: nat)
    requires PlainItems(items) && items != [] && Repeats(word, text, [Branch(items)], n, i, j)
    ensures n == 0 ==> j == i
    ensures n == 1 ==> j == i + |items|
    ensures n > 1 ==> j >= i + 2 * |items|
    ensures n > 0 ==> !NeverMatches(items)
    decreases n
  {
    hide MatchesAlts;
    if n > 0 {
      var m: nat :| MatchesAlts(word, text, [Branch(items)], i, m) && Repeats(word, text, [Branch(items)], n - 1, m, j);
      SingleMatches(word, text, items, i, m);
      RepeatLength(word, text, items, n - 1, m, j);
      SpelledReads(items, text, i);
    }
  }

  lemma SpelledReads(items: seq<Item>, text: string, i: nat)
    requires PlainItems(items) && Spelled(items, text, i)
    ensures !NeverMatches(items)
  {
    forall k | 0 <= k < |items| ensures !Unread(items[k]) {
      assert MatchNode(NodeAt(items, k), text[i + k]);
    }
  }

  // What the automaton of (a..bx)+ accepts.
  lemma PlusAccepts(items: seq<Item>, capturing: bool, lazy: bool, word: char -> bool, text: string, i: nat, j: nat)
    requires PlainItems(items) && items != []
    ensures Accepts(Nfa(CodeAll(GroupAlone([Branch(items)], capturing, Plus, lazy)), word), text, i, j)
      <==> j >= i + |items| && Spelled(items, text, i) && Many(NodeAt(items, |items| - 1), text, i + |items| - 1, j)
  {
    hide Accepts, CodeAll, MatchesSeq, NodeOf, Spelled, Many;
    var inner, n := [Branch(items)], |items|;
    var x, before := items[n - 1], items[..n - 1];
    PlainEnds(inner);
    QuantifiedGroup(inner, capturing, Plus, lazy, x.shape, word, text, i, j);
    var rebound := Rebound(inner, x.shape, Plus);
    ReboundAt(inner, x.shape, Plus, 0);
    AltsMean(word, text, rebound, i, j);
    var more := Atom(x.shape, Plus, false);
    SeqMatchesAppend(word, text, before, more, i, j);
    PlusSpelled(word, text, items, i, j);
  }

  lemma PlusSpelled(word: char -> bool, text: string, items: seq<Item>, i: nat, j: nat)
    requires PlainItems(items) && items != []
    ensures var n := |items|;
      var before, more := items[..n - 1], Atom(items[n - 1].shape, Plus, false);
      (exists m: nat :: MatchesTo(word, text, before, more, i, m, j))
      <==> j >= i + n && Spelled(items, text, i) && Many(NodeAt(items, n - 1), text, i + n - 1, j)
  {
    hide NodeOf, MatchesSeq;
    var n := |items|;
    var before, more := items[..n - 1], Atom(items[n - 1].shape, Plus, false);
    if m: nat :| MatchesTo(word, text, before, more, i, m, j) {
      BeforeMatches(word, text, before, i, m);
      LeafMatches(word, text, more, m, j);
      forall k | 0 <= k < n ensures MatchNode(NodeAt(items, k), text[i + k]) {
        if k < n - 1 { assert MatchNode(NodeAt(before, k), text[i + k]); }
      }
    }
    if j >= i + n && Spelled(items, text, i) && Many(NodeAt(items, n - 1), text, i + n - 1, j) {
      var m := i + n - 1;
      forall k | 0 <= k < |before| ensures MatchNode(NodeAt(before, k), text[i + k]) {
        assert MatchNode(NodeAt(items, k), text[i + k]);
      }
      BeforeMatches(word, text, before, i, m);
      LeafMatches(word, text, more, m, j);
      assert MatchesTo(word, text, before, more, i, m, j);
    }
  }

  lemma BeforeMatches(word: char -> bool, text: string, before: seq<Item>, i: nat, m: nat)
    requires PlainItems(before)
    ensures before != [] ==> (MatchesSeq(word, text, before, i, m) <==> m == i + |before| && Spelled(before, text, i))
    ensures before == [] ==> (MatchesSeq(word, text, before, i, m) <==> m == i)
  {
    if before != [] { PlainMatches(word, text, before, i, m); }
  }

  // (a..bx)+ is repeated if and only if it is one character, or never matches at all.
  lemma PlusRepeats(items: seq<Item>, capturing: bool, lazy: bool, word: char -> bool)
    requires PlainItems(items) && items != []
    ensures RepeatsGroup([Branch(items)], capturing, Plus, lazy, word) <==> |items| == 1 || NeverMatches(items)
  {
    hide Accepts, CodeAll, Matches, Many, NodeOf, NeverMatches;
    var inner := [Branch(items)];
    if |items| == 1 || NeverMatches(items) {
      forall text: string, i: nat, j: nat ensures Agrees(inner, capturing, Plus, lazy, word, text, i, j) {
        PlusAccepts(items, capturing, lazy, word, text, i, j);
        PlusDenotes(items, capturing, lazy, word, text, i, j);
      }
    } else {
      var text := PlusFails(items, capturing, lazy, word);
      assert !Agrees(inner, capturing, Plus, lazy, word, text, 0, |items| + 1);
    }
  }

  lemma PlusDenotes(items: seq<Item>, capturing: bool, lazy: bool, word: char -> bool, text: string, i: nat, j: nat)
    requires PlainItems(items) && items != [] && (|items| == 1 || NeverMatches(items))
    ensures Matches(word, text, Group([Branch(items)], capturing, Plus, lazy), i, j)
      <==> j >= i + |items| && Spelled(items, text, i) && Many(NodeAt(items, |items| - 1), text, i + |items| - 1, j)
  {
    hide NodeOf, Repeats, NeverMatches, MatchesAlts;
    var it := Group([Branch(items)], capturing, Plus, lazy);
    if |items| == 1 {
      OneAtomMatches(word, text, it, i, j);
      if i < j && Many(NodeAt(items, 0), text, i, j) { assert MatchNode(NodeAt(items, 0), text[i + 0]); }
    } else {
      if Spelled(items, text, i) { SpelledReads(items, text, i); }
      var inner := it.alts;
      forall n: nat | n > 0 ensures !Repeats(word, text, inner, n, i, j) {
        NeverRepeats(items, word, text, n, i, j);
      }
    }
  }

  lemma NeverRepeats(items: seq<Item>, word: char -> bool, text: string, n: nat, i: nat, j: nat)
    requires PlainItems(items) && items != [] && NeverMatches(items) && n > 0
    ensures !Repeats(word, text, [Branch(items)], n, i, j)
  {
    if Repeats(word, text, [Branch(items)], n, i, j) { RepeatLength(word, text, items, n, i, j); }
  }

  // One match and its last character again: accepted, but too long for one match and too short for two.
  lemma PlusFails(items: seq<Item>, capturing: bool, lazy: bool, word: char -> bool) returns (text: string)
    requires PlainItems(items) && |items| > 1 && !NeverMatches(items)
    ensures !Agrees([Branch(items)], capturing, Plus, lazy, word, text, 0, |items| + 1)
  {
    hide Accepts, CodeAll, NodeOf, Repeats, NeverMatches;
    var n := |items|;
    var once := SomeText(items, n, 'a');
    text := once + [once[n - 1]];
    forall k | 0 <= k < n ensures MatchNode(NodeAt(items, k), text[0 + k]) {
      assert MatchNode(NodeAt(items, k), once[0 + k]);
    }
    assert MatchNode(NodeAt(items, n - 1), text[0 + (n - 1)]);
    assert text[n] == text[n - 1];
    var inner, size := [Branch(items)], n + 1;
    PlusAccepts(items, capturing, lazy, word, text, 0, size);
    assert Spelled(items, text, 0) && Many(NodeAt(items, n - 1), text, 0 + n - 1, size);
    forall r: nat | r > 0 ensures !Repeats(word, text, inner, r, 0, size) {
      NotThatLong(items, word, text, r);
    }
    assert !Matches(word, text, Group(inner, capturing, Plus, lazy), 0, size);
  }

  lemma NotThatLong(items: seq<Item>, word: char -> bool, text: string, r: nat)
    requires PlainItems(items) && |items| > 1 && r > 0
    ensures !Repeats(word, text, [Branch(items)], r, 0, |items| + 1)
  {
    if Repeats(word, text, [Branch(items)], r, 0, |items| + 1) { RepeatLength(word, text, items, r, 0, |items| + 1); }
  }

  // ---- any number of alternatives under * and ? ----

  // An alternative that does no harm before the last one: it never matches or, under *, consists of characters of `x` only.
  predicate Harmless(items: seq<Item>, x: Item, q: Quant)
    requires PlainItems(items) && x.Atom?
  {
    NeverMatches(items) || (q.Star? && forall p | 0 <= p < |items| :: Within(items[p], x))
  }

  predicate Repeatable(alts: seq<Branch>, q: Quant)
    requires PlainAlts(alts)
  {
    && |alts[|alts|-1].items| == 1
    && forall k | 0 <= k < |alts| - 1 :: Harmless(alts[k].items, LastAtom(alts), q)
  }

  // Alternative `k` of the rebound group matches.
  ghost predicate Takes(word: char -> bool, text: string, alts: seq<Branch>, q: Quant, k: nat, i: nat, j: nat)
    requires PlainAlts(alts) && k < |alts|
  {
    var items, x := alts[k].items, LastAtom(alts);
    if k < |alts| - 1 then
      Spelled(items, text, i) && MatchesLeaf(word, text, Atom(x.shape, Rest(q), false), i + |items|, j)
    else
      (|items| == 1 || Spelled(items[..|items|-1], text, i)) && MatchesLeaf(word, text, Atom(x.shape, q, false), i + |items| - 1, j)
  }

  lemma GroupAccepts(alts: seq<Branch>, capturing: bool, q: Quant, lazy: bool, word: char -> bool, text: string, i: nat, j: nat)
    requires PlainAlts(alts) && !q.Once?
    ensures Accepts(Nfa(CodeAll(GroupAlone(alts, capturing, q, lazy)), word), text, i, j)
      <==> exists k :: 0 <= k < |alts| && Takes(word, text, alts, q, k, i, j)
  {
    hide Accepts, CodeAll, MatchesSeq, Spelled, MatchesLeaf, NodeOf, Takes;
    var x := LastAtom(alts);
    PlainEnds(alts);
    QuantifiedGroup(alts, capturing, q, lazy, x.shape, word, text, i, j);
    var rebound := Rebound(alts, x.shape, q);
    AltsAt(word, text, rebound, i, j);
    forall k: nat | k < |alts| ensures MatchesSeq(word, text, rebound[k].items, i, j) <==> Takes(word, text, alts, q, k, i, j) {
      ReboundTakes(alts, q, word, text, k, i, j);
    }
  }

  lemma ReboundTakes(alts: seq<Branch>, q: Quant, word: char -> bool, text: string, k: nat, i: nat, j: nat)
    requires PlainAlts(alts) && !q.Once? && k < |alts|
    ensures MatchesSeq(word, text, Rebound(alts, LastAtom(alts).shape, q)[k].items, i, j) <==> Takes(word, text, alts, q, k, i, j)
  {
    hide MatchesLeaf, NodeOf, Matches, MatchesSeq;
    var items, x := alts[k].items, LastAtom(alts);
    ReboundAt(alts, x.shape, q, k);
    var before := if k < |alts| - 1 then items else items[..|items|-1];
    var it := Atom(x.shape, if k < |alts| - 1 then Rest(q) else q, false);
    SeqMatchesAppend(word, text, before, it, i, j);
    var m := i + |before|;
    BeforeMatches(word, text, before, i, m);
    LeafMatches(word, text, it, m, j);
    if m': nat :| MatchesTo(word, text, before, it, i, m', j) {
      BeforeMatches(word, text, before, i, m');
    }
    if Takes(word, text, alts, q, k, i, j) {
      assert MatchesTo(word, text, before, it, i, m, j);
    }
  }

  lemma AltsSpelled(word: char -> bool, text: string, alts: seq<Branch>, i: nat, j: nat)
    requires PlainAlts(alts)
    ensures MatchesAlts(word, text, alts, i, j)
      <==> exists k :: 0 <= k < |alts| && j == i + |alts[k].items| && Spelled(alts[k].items, text, i)
  {
    hide MatchesSeq, Spelled;
    AltsAt(word, text, alts, i, j);
    forall k | 0 <= k < |alts|
      ensures MatchesSeq(word, text, alts[k].items, i, j) <==> j == i + |alts[k].items| && Spelled(alts[k].items, text, i)
    {
      PlainMatches(word, text, alts[k].items, i, j);
    }
  }

  // ---- when the condition holds ----

  lemma SpelledMany(items: seq<Item>, x: Item, text: string, i: nat)
    requires PlainItems(items) && x.Atom? && Spelled(items, text, i) && forall p | 0 <= p < |items| :: Within(items[p], x)
    ensures Many(NodeOf(x.shape), text, i, i + |items|)
  {
    hide NodeOf;
    forall t | i <= t < i + |items| ensures t < |text| && MatchNode(NodeOf(x.shape), text[t]) {
      assert MatchNode(NodeAt(items, t - i), text[i + (t - i)]) && Within(items[t - i], x);
    }
  }

  lemma ManyJoin(node: Node, text: string, i: nat, m: nat, j: nat)
    requires Many(node, text, i, m) && Many(node, text, m, j)
    ensures Many(node, text, i, j)
  {
    forall k | i <= k < j ensures k < |text| && MatchNode(node, text[k]) {
    }
  }

  // Whatever alternative is read, its characters are characters of the last one.
  lemma AltMany(alts: seq<Branch>, word: char -> bool, text: string, k: nat, i: nat)
    requires PlainAlts(alts) && Repeatable(alts, Star) && k < |alts| && Spelled(alts[k].items, text, i)
    ensures Many(NodeOf(LastAtom(alts).shape), text, i, i + |alts[k].items|)
  {
    hide NodeOf;
    var items, x := alts[k].items, LastAtom(alts);
    SpelledReads(items, text, i);
    if k < |alts| - 1 {
      assert Harmless(items, x, Star);
      SpelledMany(items, x, text, i);
    } else {
      SpelledMany(items, x, text, i);
    }
  }

  lemma {:induction false} RepeatsMany(alts: seq<Branch>, word: char -> bool, text: string, n: nat, i: nat, j: nat)
    requires PlainAlts(alts) && Repeatable(alts, Star) && Repeats(word, text, alts, n, i, j)
    ensures Many(NodeOf(LastAtom(alts).shape), text, i, j)
    decreases n
  {
    hide NodeOf, MatchesAlts, Repeatable;
    if n > 0 {
      var m: nat :| MatchesAlts(word, text, alts, i, m) && Repeats(word, text, alts, n - 1, m, j);
      AltsSpelled(word, text, alts, i, m);
      var k :| 0 <= k < |alts| && m == i + |alts[k].items| && Spelled(alts[k].items, text, i);
      AltMany(alts, word, text, k, i);
      RepeatsMany(alts, word, text, n - 1, m, j);
      ManyJoin(NodeOf(LastAtom(alts).shape), text, i, m, j);
    }
  }

  lemma {:induction false} ManyRepeats(alts: seq<Branch>, word: char -> bool, text: string, n: nat, i: nat)
    requires PlainAlts(alts) && |alts[|alts|-1].items| == 1 && Many(NodeOf(LastAtom(alts).shape), text, i, i + n)
    ensures Repeats(word, text, alts, n, i, i + n)
    decreases n
  {
    hide NodeOf, MatchesAlts;
    if n > 0 {
      var k := |alts| - 1;
      assert MatchNode(NodeAt(alts[k].items, 0), text[i + 0]);
      AltsSpelled(word, text, alts, i, i + 1);
      assert i + 1 == i + |alts[k].items| && Spelled(alts[k].items, text, i);
      ManyRepeats(alts, word, text, n - 1, i + 1);
    }
  }

  lemma StarHolds(alts: seq<Branch>, capturing: bool, lazy: bool, word: char -> bool, text: string, i: nat, j: nat)
    requires PlainAlts(alts) && Repeatable(alts, Star)
    ensures Agrees(alts, capturing, Star, lazy, word, text, i, j)
  {
    hide Accepts, CodeAll, NodeOf, Repeatable, Repeats, Many, Spelled;
    var node, last := NodeOf(LastAtom(alts).shape), |alts| - 1;
    OneLast(alts, Star);
    GroupAccepts(alts, capturing, Star, lazy, word, text, i, j);
    if k :| 0 <= k < |alts| && Takes(word, text, alts, Star, k, i, j) {
      if k < last {
        AltMany(alts, word, text, k, i);
        ManyJoin(node, text, i, i + |alts[k].items|, j);
      }
      assert Many(node, text, i, j);
    }
    if n: nat :| Repeats(word, text, alts, n, i, j) {
      RepeatsMany(alts, word, text, n, i, j);
    }
    if Many(node, text, i, j) {
      assert Takes(word, text, alts, Star, last, i, j);
      assert i <= j by { ManyForward(node, text, i, j); }
      ManyRepeats(alts, word, text, j - i, i);
      assert Repeats(word, text, alts, j - i, i, j);
      assert Accepts(Nfa(CodeAll(GroupAlone(alts, capturing, Star, lazy)), word), text, i, j);
      assert Matches(word, text, Group(alts, capturing, Star, lazy), i, j);
    } else {
      assert !Accepts(Nfa(CodeAll(GroupAlone(alts, capturing, Star, lazy)), word), text, i, j);
      assert !Matches(word, text, Group(alts, capturing, Star, lazy), i, j);
    }
  }

  lemma OneLast(alts: seq<Branch>, q: Quant)
    requires PlainAlts(alts) && Repeatable(alts, q)
    ensures |alts[|alts|-1].items| == 1
  {
  }

  lemma OptionalHolds(alts: seq<Branch>, capturing: bool, lazy: bool, word: char -> bool, text: string, i: nat, j: nat)
    requires PlainAlts(alts) && Repeatable(alts, Optional)
    ensures Agrees(alts, capturing, Optional, lazy, word, text, i, j)
  {
    hide Accepts, CodeAll, NodeOf, NeverMatches;
    var last := |alts| - 1;
    GroupAccepts(alts, capturing, Optional, lazy, word, text, i, j);
    AltsSpelled(word, text, alts, i, j);
    forall k | 0 <= k < last ensures !Spelled(alts[k].items, text, i) {
      assert Harmless(alts[k].items, LastAtom(alts), Optional);
      if Spelled(alts[k].items, text, i) { SpelledReads(alts[k].items, text, i); }
    }
    assert NodeAt(alts[last].items, 0) == NodeOf(LastAtom(alts).shape);
    if One(NodeOf(LastAtom(alts).shape), text, i, j) {
      assert MatchNode(NodeAt(alts[last].items, 0), text[i + 0]);
      assert Spelled(alts[last].items, text, i);
    }
    if Spelled(alts[last].items, text, i) { assert MatchNode(NodeAt(alts[last].items, 0), text[i + 0]); }
    assert Takes(word, text, alts, Optional, last, i, j) <==> i == j || One(NodeOf(LastAtom(alts).shape), text, i, j);
  }

  // ---- when it does not: a text on which automaton and group disagree ----

  // The empty text, if the last alternative has more than one character.
  lemma EmptyFails(alts: seq<Branch>, capturing: bool, q: Quant, lazy: bool, word: char -> bool)
    requires PlainAlts(alts) && (q.Star? || q.Optional?) && |alts[|alts|-1].items| > 1
    ensures !Agrees(alts, capturing, q, lazy, word, "", 0, 0)
  {
    hide Accepts, CodeAll, NodeOf;
    GroupAccepts(alts, capturing, q, lazy, word, "", 0, 0);
    assert Repeats(word, "", alts, 0, 0, 0);
  }

  // Under *, a shortest text of an alternative with a character that is none of the last one's.
  lemma {:induction false} StarFails(alts: seq<Branch>, capturing: bool, lazy: bool, word: char -> bool, k: nat) returns (text: string, j: nat)
    requires PlainAlts(alts) && |alts[|alts|-1].items| == 1 && k < |alts| - 1 && !Harmless(alts[k].items, LastAtom(alts), Star)
    ensures !Agrees(alts, capturing, Star, lazy, word, text, 0, j)
    decreases |alts[k].items|
  {
    hide Accepts, CodeAll, NodeOf, NeverMatches, MatchesAlts, Repeats;
    var items, x := alts[k].items, LastAtom(alts);
    var p :| 0 <= p < |items| && !Within(items[p], x);
    var ch: char :| MatchNode(NodeOf(items[p].shape), ch) && !MatchNode(NodeOf(x.shape), ch);
    text := SomeText(items, p, ch);
    j := |text|;
    AltsSpelled(word, text, alts, 0, j);
    OnceRepeats(alts, word, text, j);
    GroupAccepts(alts, capturing, Star, lazy, word, text, 0, j);
    if Agrees(alts, capturing, Star, lazy, word, text, 0, j) {
      var h :| 0 <= h < |alts| && Takes(word, text, alts, Star, h, 0, j);
      TakesOther(alts, word, text, h, j, p);
      assert MatchNode(NodeAt(alts[h].items, p), text[0 + p]);
      assert !Within(alts[h].items[p], x);
      SpelledReads(alts[h].items, text, 0);
      text, j := StarFails(alts, capturing, lazy, word, h);
    }
  }

  lemma OnceRepeats(alts: seq<Branch>, word: char -> bool, text: string, j: nat)
    requires MatchesAlts(word, text, alts, 0, j)
    ensures Repeats(word, text, alts, 1, 0, j)
  {
    hide MatchesAlts;
    assert Repeats(word, text, alts, 0, j, j);
  }

  // The character at `p` is none of the last alternative's, so a shorter alternative has read it.
  lemma TakesOther(alts: seq<Branch>, word: char -> bool, text: string, h: nat, j: nat, p: nat)
    requires PlainAlts(alts) && |alts[|alts|-1].items| == 1 && h < |alts| && Takes(word, text, alts, Star, h, 0, j)
    requires p < j == |text| && !MatchNode(NodeOf(LastAtom(alts).shape), text[p])
    ensures h < |alts| - 1 && p < |alts[h].items| < j && Spelled(alts[h].items, text, 0)
  {
    hide NodeOf;
  }

  // Under ?, a longest text of another alternative and one character more.
  lemma {:induction false} OptionalFails(alts: seq<Branch>, capturing: bool, lazy: bool, word: char -> bool, k: nat, bound: nat) returns (text: string, j: nat)
    requires PlainAlts(alts) && |alts[|alts|-1].items| == 1 && k < |alts| - 1 && !NeverMatches(alts[k].items)
    requires forall h | 0 <= h < |alts| :: |alts[h].items| <= bound
    ensures !Agrees(alts, capturing, Optional, lazy, word, text, 0, j)
    decreases bound - |alts[k].items|
  {
    hide Accepts, CodeAll, NodeOf, NeverMatches, MatchesAlts;
    var items, x := alts[k].items, LastAtom(alts);
    var once := SomeText(items, |items|, 'a');
    if ch: char :| MatchNode(NodeOf(x.shape), ch) {
      text, j := once + [ch], |once| + 1;
      Extended(items, once, ch);
      GroupAccepts(alts, capturing, Optional, lazy, word, text, 0, j);
      assert Takes(word, text, alts, Optional, k, 0, j);
      AltsSpelled(word, text, alts, 0, j);
      if Agrees(alts, capturing, Optional, lazy, word, text, 0, j) {
        var h :| 0 <= h < |alts| && j == 0 + |alts[h].items| && Spelled(alts[h].items, text, 0);
        SpelledReads(alts[h].items, text, 0);
        text, j := OptionalFails(alts, capturing, lazy, word, h, bound);
      }
    } else {
      text, j := once, |once|;
      AltsSpelled(word, text, alts, 0, j);
      GroupAccepts(alts, capturing, Optional, lazy, word, text, 0, j);
    }
  }

  lemma Extended(items: seq<Item>, once: string, ch: char)
    requires PlainItems(items) && Spelled(items, once, 0)
    ensures Spelled(items, once + [ch], 0)
  {
    forall k | 0 <= k < |items| ensures MatchNode(NodeAt(items, k), (once + [ch])[0 + k]) {
      assert MatchNode(NodeAt(items, k), once[0 + k]);
    }
  }

  function MaxLength(alts: seq<Branch>): (r: nat)
    ensures forall k | 0 <= k < |alts| :: |alts[k].items| <= r
  {
    if alts == [] then 0
    else
      var rest := MaxLength(alts[1..]);
      assert forall k | 1 <= k < |alts| :: alts[k] == alts[1..][k - 1];
      if |alts[0].items| > rest then |alts[0].items| else rest
  }

  // A group of plain alternatives under * or ? is repeated if and only if its last alternative is a single
  // character and the others do no harm before it.
  lemma GroupRepeats(alts: seq<Branch>, capturing: bool, q: Quant, lazy: bool, word: char -> bool)
    requires PlainAlts(alts) && (q.Star? || q.Optional?)
    ensures RepeatsGroup(alts, capturing, q, lazy, word) <==> Repeatable(alts, q)
  {
    hide Agrees, Harmless, NeverMatches;
    var last := |alts| - 1;
    if Repeatable(alts, q) {
      forall text: string, i: nat, j: nat ensures Agrees(alts, capturing, q, lazy, word, text, i, j) {
        if q.Star? { StarHolds(alts, capturing, lazy, word, text, i, j); } else { OptionalHolds(alts, capturing, lazy, word, text, i, j); }
      }
    } else if |alts[last].items| > 1 {
      EmptyFails(alts, capturing, q, lazy, word);
    } else {
      var k :| 0 <= k < last && !Harmless(alts[k].items, LastAtom(alts), q);
      if q.Star? {
        var text, j := StarFails(alts, capturing, lazy, word, k);
      } else {
        NotHarmless(alts[k].items, LastAtom(alts));
        var text, j := OptionalFails(alts, capturing, lazy, word, k, MaxLength(alts));
      }
    }
  }

  lemma NotHarmless(items: seq<Item>, x: Item)
    requires PlainItems(items) && x.Atom? && !Harmless(items, x, Optional)
    ensures !NeverMatches(items)
  {
  }

  // ---- any number of alternatives under + ----

  lemma {:induction false} RepeatsForward(alts: seq<Branch>, word: char -> bool, text: string, n: nat, i: nat, j: nat)
    requires PlainAlts(alts) && Repeats(word, text, alts, n, i, j)
    ensures j >= i + n
    decreases n
  {
    hide MatchesAlts;
    if n > 0 {
      var m: nat :| MatchesAlts(word, text, alts, i, m) && Repeats(word, text, alts, n - 1, m, j);
      AltsSpelled(word, text, alts, i, m);
      RepeatsForward(alts, word, text, n - 1, m, j);
    }
  }

  lemma PlusHolds(alts: seq<Branch>, capturing: bool, lazy: bool, word: char -> bool, text: string, i: nat, j: nat)
    requires PlainAlts(alts) && Repeatable(alts, Star)
    ensures Agrees(alts, capturing, Plus, lazy, word, text, i, j)
  {
    hide Accepts, CodeAll, NodeOf, Repeatable, Repeats, Many, Spelled;
    var node, last := NodeOf(LastAtom(alts).shape), |alts| - 1;
    OneLast(alts, Star);
    GroupAccepts(alts, capturing, Plus, lazy, word, text, i, j);
    if k :| 0 <= k < |alts| && Takes(word, text, alts, Plus, k, i, j) {
      if k < last {
        AltMany(alts, word, text, k, i);
        ManyJoin(node, text, i, i + |alts[k].items|, j);
        assert i < j by { ManyForward(node, text, i + |alts[k].items|, j); }
      }
      assert i < j && Many(node, text, i, j);
    }
    if n: nat :| n > 0 && Repeats(word, text, alts, n, i, j) {
      RepeatsMany(alts, word, text, n, i, j);
      RepeatsForward(alts, word, text, n, i, j);
    }
    if i < j && Many(node, text, i, j) {
      assert Takes(word, text, alts, Plus, last, i, j);
      ManyRepeats(alts, word, text, j - i, i);
      assert j - i > 0 && Repeats(word, text, alts, j - i, i, j);
      assert Accepts(Nfa(CodeAll(GroupAlone(alts, capturing, Plus, lazy)), word), text, i, j);
      assert Matches(word, text, Group(alts, capturing, Plus, lazy), i, j);
    } else {
      assert !Accepts(Nfa(CodeAll(GroupAlone(alts, capturing, Plus, lazy)), word), text, i, j);
      assert !Matches(word, text, Group(alts, capturing, Plus, lazy), i, j);
    }
  }

  function Power(once: string, n: nat): (r: string)
    ensures once != "" ==> |r| >= n
  {
    if n == 0 then "" else once + Power(once, n - 1)
  }

  lemma {:induction false} PowerEnds(once: string, n: nat)
    ensures Power(once, n + 1) == Power(once, n) + once
  {
    if n > 0 {
      PowerEnds(once, n - 1);
      assert once + (Power(once, n - 1) + once) == once + Power(once, n - 1) + once;
    } else {
      assert Power(once, 0) == "" && once + "" == "" + once;
    }
  }

  lemma {:induction false} PowerRepeats(alts: seq<Branch>, k: nat, word: char -> bool, before: string, once: string, n: nat)
    requires PlainAlts(alts) && k < |alts| && |once| == |alts[k].items| && Spelled(alts[k].items, once, 0)
    ensures var text := before + Power(once, n); Repeats(word, text, alts, n, |before|, |text|)
    decreases n
  {
    hide NodeOf, MatchesAlts;
    if n > 0 {
      var items, text, i := alts[k].items, before + Power(once, n), |before|;
      assert text == (before + once) + Power(once, n - 1);
      forall p | 0 <= p < |items| ensures MatchNode(NodeAt(items, p), text[i + p]) {
        assert MatchNode(NodeAt(items, p), once[0 + p]) && text[i + p] == once[p];
      }
      AltsSpelled(word, text, alts, i, i + |items|);
      PowerRepeats(alts, k, word, before + once, once, n - 1);
    }
  }

  // An alternative with a character that is none of the last one's, more often than any alternative is long.
  lemma PlusGroupFails(alts: seq<Branch>, capturing: bool, lazy: bool, word: char -> bool, k: nat) returns (text: string)
    requires PlainAlts(alts) && k < |alts| && !Harmless(alts[k].items, LastAtom(alts), Star)
    ensures !Agrees(alts, capturing, Plus, lazy, word, text, 0, |text|)
  {
    hide Accepts, CodeAll, NodeOf, NeverMatches, Repeats;
    var items, x, n := alts[k].items, LastAtom(alts), MaxLength(alts);
    var p :| 0 <= p < |items| && !Within(items[p], x);
    var ch: char :| MatchNode(NodeOf(items[p].shape), ch) && !MatchNode(NodeOf(x.shape), ch);
    var once := SomeText(items, p, ch);
    text := Power(once, n + 1);
    PowerRepeats(alts, k, word, "", once, n + 1);
    assert "" + text == text;
    assert Matches(word, text, Group(alts, capturing, Plus, lazy), 0, |text|);
    PowerEnds(once, n);
    var at := |Power(once, n)| + p;
    assert at >= n && text[at] == ch;
    GroupAccepts(alts, capturing, Plus, lazy, word, text, 0, |text|);
    forall h | 0 <= h < |alts| ensures !Takes(word, text, alts, Plus, h, 0, |text|) {
      NotTaken(alts, word, text, h, at);
    }
  }

  lemma NotTaken(alts: seq<Branch>, word: char -> bool, text: string, h: nat, at: nat)
    requires PlainAlts(alts) && h < |alts| && |alts[h].items| <= at < |text|
    requires !MatchNode(NodeOf(LastAtom(alts).shape), text[at])
    ensures !Takes(word, text, alts, Plus, h, 0, |text|)
  {
    hide NodeOf;
  }

  // Under + every alternative must be harmless; if the last one is a single character, that is enough.
  lemma PlusGroupRepeats(alts: seq<Branch>, capturing: bool, lazy: bool, word: char -> bool)
    requires PlainAlts(alts)
    ensures RepeatsGroup(alts, capturing, Plus, lazy, word) ==> forall k | 0 <= k < |alts| :: Harmless(alts[k].items, LastAtom(alts), Star)
    ensures |alts[|alts|-1].items| == 1 ==> (RepeatsGroup(alts, capturing, Plus, lazy, word) <==> Repeatable(alts, Star))
  {
    hide Agrees, Harmless, NeverMatches;
    if k :| 0 <= k < |alts| && !Harmless(alts[k].items, LastAtom(alts), Star) {
      var text := PlusGroupFails(alts, capturing, lazy, word, k);
    }
    if Repeatable(alts, Star) {
      forall text: string, i: nat, j: nat ensures Agrees(alts, capturing, Plus, lazy, word, text, i, j) {
        PlusHolds(alts, capturing, lazy, word, text, i, j);
      }
    }
  }

  // ---- two patterns as they are written ----

  // (ab)* compiles, and its automaton rejects the empty text, which no repetition of ab at all would be.
  lemma StarredPair(word: char -> bool)
    ensures var inner := [Branch([Atom(Plain('a'), Once, false), Atom(Plain('b'), Once, false)])];
      var alts := GroupAlone(inner, true, Star, false);
      && PrintAlts(alts) == "(ab)*" && WellAlts(alts)
      && !Accepts(Nfa(CodeAll(alts), word), "", 0, 0) && MatchesAlts(word, "", alts, 0, 0)
  {
    var a, b := Atom(Plain('a'), Once, false), Atom(Plain('b'), Once, false);
    var inner := [Branch([a, b])];
    assert PlainItems([a, b]);
    PairWritten(a, b);
    EmptyFails(inner, true, Star, false, word);
    AloneMatches(inner, true, Star, false, word, "", 0, 0);
    assert Repeats(word, "", inner, 0, 0, 0);
  }

  lemma PairWritten(a: Item, b: Item)
    requires a == Atom(Plain('a'), Once, false) && b == Atom(Plain('b'), Once, false)
    ensures var alts := GroupAlone([Branch([a, b])], true, Star, false); PrintAlts(alts) == "(ab)*" && WellAlts(alts)
  {
    var items := [a, b];
    assert items[1..] == [b] && [b][1..] == [];
    assert PrintSeq([b]) == "b";
    assert PrintSeq(items) == "ab";
    assert PrintAlts([Branch(items)]) == "ab";
    var g := Group([Branch(items)], true, Star, false);
    assert PrintItem(g) == "(ab)*";
    assert [g][1..] == [];
    assert PrintSeq([g]) == "(ab)*";
    assert Well(a) && Well(b) && WellSeq([b]) && WellSeq(items);
    assert LenSeq([b]) == 1 && LenSeq(items) == 2;
    assert LenAlts([Branch(items)]) == 2;
    assert Well(g);
  }

  lemma AloneMatches(inner: seq<Branch>, capturing: bool, q: Quant, lazy: bool, word: char -> bool, text: string, i: nat, j: nat)
    ensures MatchesAlts(word, text, GroupAlone(inner, capturing, q, lazy), i, j) <==> Matches(word, text, Group(inner, capturing, q, lazy), i, j)
  {
    hide Matches;
    var g := Group(inner, capturing, q, lazy);
    AltsMean(word, text, GroupAlone(inner, capturing, q, lazy), i, j);
    assert [g][1..] == [];
    if MatchesSeq(word, text, [g], i, j) {
      var m := SeqSplit(word, text, [g], i, j);
    }
    if Matches(word, text, g, i, j) {
      SeqJoined(word, text, [g], i, j, j);
    }
  }
}
