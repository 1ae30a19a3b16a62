// The regex engine's automaton (src/util.rs) and what it accepts: paths of
// epsilon moves, zero-width assertions and character reads.
module RegexNfa {

  datatype Anchor = LineStart | LineEnd | WordBoundary | NonWordBoundary

  datatype Node = Literal(c: char) | AnyChar | CharClass(ranges: seq<(char, char)>, negated: bool) | Assert(anchor: Anchor)

  datatype NfaState = Match(node: Node, next: nat) | Split(left: nat, right: nat) | Accept

  // `word` says which characters \b counts as part of a word.
  datatype Nfa = Nfa(states: seq<NfaState>, word: char -> bool)

  predicate InRanges(ranges: seq<(char, char)>, ch: char) {
    exists i :: 0 <= i < |ranges| && ranges[i].0 <= ch <= ranges[i].1
  }

  predicate MatchNode(node: Node, ch: char) {
    match node
    case Literal(c) => ch == c
    case AnyChar => ch != '\n'
    case CharClass(ranges, negated) => InRanges(ranges, ch) != negated
    case Assert(_) => false
  }

  predicate WordAt(word: char -> bool, text: string, pos: int) {
    0 <= pos < |text| && word(text[pos])
  }

  predicate Holds(word: char -> bool, a: Anchor, text: string, pos: nat) {
    match a
    case LineStart => pos == 0
    case LineEnd => pos == |text|
    case WordBoundary => WordAt(word, text, pos - 1) != WordAt(word, text, pos)
    case NonWordBoundary => WordAt(word, text, pos - 1) == WordAt(word, text, pos)
  }

  // A move that reads nothing.
  predicate Eps(nfa: Nfa, text: string, pos: nat, q: nat, to: nat) {
    q < |nfa.states| &&
    match nfa.states[q]
    case Split(a, b) => to == a || to == b
    case Match(Assert(a), next) => to == next && Holds(nfa.word, a, text, pos)
    case _ => false
  }

  predicate Reads(nfa: Nfa, text: string, pos: nat, q: nat, to: nat) {
    && q < |nfa.states| && pos < |text|
    && nfa.states[q].Match? && to == nfa.states[q].next && MatchNode(nfa.states[q].node, text[pos])
  }

  predicate Move(nfa: Nfa, text: string, q: nat, i: nat, to: nat, j: nat) {
    (j == i && Eps(nfa, text, i, q, to)) || (j == i + 1 && Reads(nfa, text, i, q, to))
  }

  // `k` moves lead from state `q` at position `i` to state `to` at position `j`.
  ghost predicate Path(nfa: Nfa, text: string, k: nat, q: nat, i: nat, to: nat, j: nat) {
    if k == 0 then q == to && i == j
    else exists p: nat, m: nat :: Path(nfa, text, k - 1, q, i, p, m) && Move(nfa, text, p, m, to, j)
  }

  ghost predicate Reaches(nfa: Nfa, text: string, start: nat, q: nat, pos: nat) {
    q < |nfa.states| && exists k: nat :: Path(nfa, text, k, 0, start, q, pos)
  }

  // Some accepting path starts at `start` and ends at `end`.
  ghost predicate Accepts(nfa: Nfa, text: string, start: nat, end: nat) {
    exists q: nat :: Reaches(nfa, text, start, q, end) && nfa.states[q].Accept?
  }

  lemma {:induction false} PathForward(nfa: Nfa, text: string, k: nat, q: nat, i: nat, to: nat, j: nat)
    requires Path(nfa, text, k, q, i, to, j)
    ensures i <= j && (i <= |text| ==> j <= |text|)
  {
    if k > 0 {
      var p: nat, m: nat :| Path(nfa, text, k - 1, q, i, p, m) && Move(nfa, text, p, m, to, j);
      PathForward(nfa, text, k - 1, q, i, p, m);
    }
  }

  lemma ReachesStart(nfa: Nfa, text: string, start: nat)
    requires nfa.states != []
    ensures Reaches(nfa, text, start, 0, start)
  {
    assert Path(nfa, text, 0, 0, start, 0, start);
  }

  lemma ReachesMove(nfa: Nfa, text: string, start: nat, p: nat, m: nat, q: nat, pos: nat)
    requires Reaches(nfa, text, start, p, m) && Move(nfa, text, p, m, q, pos) && q < |nfa.states|
    ensures Reaches(nfa, text, start, q, pos)
  {
    var k: nat :| Path(nfa, text, k, 0, start, p, m);
    assert Path(nfa, text, k + 1, 0, start, q, pos);
  }

  lemma ReachesForward(nfa: Nfa, text: string, start: nat, q: nat, pos: nat)
    requires Reaches(nfa, text, start, q, pos)
    ensures start <= pos && (start <= |text| ==> pos <= |text|)
  {
    var k: nat :| Path(nfa, text, k, 0, start, q, pos);
    PathForward(nfa, text, k, 0, start, q, pos);
  }
}
