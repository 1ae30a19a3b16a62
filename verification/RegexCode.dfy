// Regular expressions of the supported fragment, what they denote, and the
// automaton code that the compiler is to produce for them.
module RegexCode {
  import opened RegexNfa

  datatype Quant = Once | Star | Plus | Optional

  // A member of a bracket class: one character, or all from `a` to `b`.
  datatype Member = Single(a: char) | Span(a: char, b: char)

  // How a character matcher is written in a pattern.
  datatype Shape = Plain(c: char) | Escape(c: char) | Dot | Class(members: seq<Member>, negated: bool)

  // Assertions carry no quantifier.
  datatype Item =
    | Atom(shape: Shape, quant: Quant, lazy: bool)
    | Zero(anchor: Anchor)
    | Group(alts: seq<Branch>, capturing: bool, quant: Quant, lazy: bool)

  datatype Branch = Branch(items: seq<Item>)

  function EscapeNode(c: char): Node {
    match c
    case 'd' => CharClass([('0', '9')], false)
    case 'D' => CharClass([('0', '9')], true)
    case 'w' => CharClass([('a', 'z'), ('A', 'Z'), ('0', '9'), ('_', '_')], false)
    case 'W' => CharClass([('a', 'z'), ('A', 'Z'), ('0', '9'), ('_', '_')], true)
    case 's' => CharClass([(' ', ' '), ('\t', '\t'), ('\n', '\n'), ('\r', '\r')], false)
    case 'S' => CharClass([(' ', ' '), ('\t', '\t'), ('\n', '\n'), ('\r', '\r')], true)
    case 'b' => Assert(WordBoundary)
    case 'B' => Assert(NonWordBoundary)
    case 'n' => Literal('\n')
    case 't' => Literal('\t')
    case 'r' => Literal('\r')
    case '0' => Literal('\0')
    case _ => Literal(c)
  }

  function RangesOf(members: seq<Member>): (r: seq<(char, char)>)
    ensures |r| == |members|
    ensures forall i | 0 <= i < |members| :: r[i] == if members[i].Single? then (members[i].a, members[i].a) else (members[i].a, members[i].b)
  {
    seq(|members|, i requires 0 <= i < |members| => if members[i].Single? then (members[i].a, members[i].a) else (members[i].a, members[i].b))
  }

  function NodeOf(shape: Shape): Node {
    match shape
    case Plain(c) => Literal(c)
    case Escape(c) => EscapeNode(c)
    case Dot => AnyChar
    case Class(members, negated) => CharClass(RangesOf(members), negated)
  }

  // Parentheses and bars would be taken for structure by the scan for alternatives, even escaped or in brackets.
  predicate Structural(c: char) {
    c == '(' || c == ')' || c == '|'
  }

  predicate Special(c: char) {
    Structural(c) || c == '[' || c == '.' || c == '^' || c == '$' || c == '\\' || c == '*' || c == '+' || c == '?'
  }

  // A character that may stand in a class: a bracket would end it.
  predicate InClass(c: char) {
    !Structural(c) && c != ']'
  }

  predicate WellMember(m: Member) {
    InClass(m.a) && (m.Span? ==> InClass(m.b))
  }

  // Two members side by side: a hyphen after a single character would make a range of it unless it is the
  // last member, and an opening bracket before a colon would open a named class.
  predicate WellPair(m: Member, next: Member, last: bool) {
    && (m.Single? && next.a == '-' ==> last && next.Single?)
    && (m == Single('[') ==> next.a != ':')
  }

  predicate WellMembers(members: seq<Member>) {
    && (forall i | 0 <= i < |members| :: WellMember(members[i]))
    && (forall i | 0 <= i < |members| - 1 :: WellPair(members[i], members[i + 1], i + 1 == |members| - 1))
  }

  predicate WellShape(shape: Shape) {
    match shape
    case Plain(c) => !Special(c)
    case Escape(c) => !Structural(c) && c != 'b' && c != 'B' && c != 'p' && c != 'P'
    case Dot => true
    case Class(members, negated) => WellMembers(members) && (!negated && members != [] ==> members[0].a != '^')
  }

  predicate Well(it: Item)
    decreases it, 1
  {
    match it
    case Atom(shape, q, lazy) => WellShape(shape) && (q.Once? ==> !lazy)
    case Zero(_) => true
    case Group(alts, _, q, lazy) => alts != [] && WellAlts(alts) && (q.Once? ==> !lazy) && (q.Once? || LenAlts(alts) > 0)
  }

  lemma ShapeReads(shape: Shape)
    requires WellShape(shape)
    ensures !NodeOf(shape).Assert?
  {
  }

  predicate WellAlts(alts: seq<Branch>)
    decreases alts, 0
  {
    alts != [] ==> WellSeq(alts[0].items) && WellAlts(alts[1..])
  }

  predicate WellSeq(items: seq<Item>)
    decreases items, 0
  {
    items != [] ==> Well(items[0]) && WellSeq(items[1..])
  }

  // ---- denotation: which stretches text[i..j] match, in their context ----

  predicate One(node: Node, text: string, i: nat, j: nat) {
    i < |text| && j == i + 1 && MatchNode(node, text[i])
  }

  predicate Many(node: Node, text: string, i: nat, j: nat) {
    i <= j && (i < j ==> j <= |text|) && forall k | i <= k < j :: k < |text| && MatchNode(node, text[k])
  }

  // Items other than groups.
  predicate MatchesLeaf(word: char -> bool, text: string, it: Item, i: nat, j: nat) {
    match it
    case Atom(shape, Once, _) => One(NodeOf(shape), text, i, j)
    case Atom(shape, Optional, _) => i == j || One(NodeOf(shape), text, i, j)
    case Atom(shape, Star, _) => Many(NodeOf(shape), text, i, j)
    case Atom(shape, Plus, _) => i < j && Many(NodeOf(shape), text, i, j)
    case Zero(a) => i == j && Holds(word, a, text, i)
    case Group(_, _, _, _) => false
  }

  ghost predicate Matches(word: char -> bool, text: string, it: Item, i: nat, j: nat)
    decreases it, 1
  {
    if it.Group? then
      match it.quant
      case Once => MatchesAlts(word, text, it.alts, i, j)
      case Optional => i == j || MatchesAlts(word, text, it.alts, i, j)
      case Star => exists n: nat :: Repeats(word, text, it.alts, n, i, j)
      case Plus => exists n: nat :: n > 0 && Repeats(word, text, it.alts, n, i, j)
    else MatchesLeaf(word, text, it, i, j)
  }

  // `n` matches of the group, one after the other.
  ghost predicate Repeats(word: char -> bool, text: string, alts: seq<Branch>, n: nat, i: nat, j: nat)
    decreases alts, 1, n
  {
    if n == 0 then i == j
    else exists m: nat :: MatchesAlts(word, text, alts, i, m) && Repeats(word, text, alts, n - 1, m, j)
  }

  ghost predicate MatchesAlts(word: char -> bool, text: string, alts: seq<Branch>, i: nat, j: nat)
    decreases alts, 0
  {
    alts != [] && (MatchesSeq(word, text, alts[0].items, i, j) || MatchesAlts(word, text, alts[1..], i, j))
  }

  ghost predicate MatchesSeq(word: char -> bool, text: string, items: seq<Item>, i: nat, j: nat)
    decreases items, 2
  {
    if items == [] then i == j else exists m: nat :: MatchesVia(word, text, items, i, m, j)
  }

  // The first item up to `m`, the others from there.
  ghost predicate MatchesVia(word: char -> bool, text: string, items: seq<Item>, i: nat, m: nat, j: nat)
    requires items != []
    decreases items, 1
  {
    Matches(word, text, items[0], i, m) && MatchesSeq(word, text, items[1..], m, j)
  }

  lemma SeqSplit(word: char -> bool, text: string, items: seq<Item>, i: nat, j: nat) returns (m: nat)
    requires items != [] && MatchesSeq(word, text, items, i, j)
    ensures Matches(word, text, items[0], i, m) && MatchesSeq(word, text, items[1..], m, j)
  {
    m :| MatchesVia(word, text, items, i, m, j);
  }

  lemma SeqJoined(word: char -> bool, text: string, items: seq<Item>, i: nat, m: nat, j: nat)
    requires items != [] && Matches(word, text, items[0], i, m) && MatchesSeq(word, text, items[1..], m, j)
    ensures MatchesSeq(word, text, items, i, j)
  {
    assert MatchesVia(word, text, items, i, m, j);
  }

  // ---- which groups the engine repeats ----

  // One alternative of one unquantified character.
  predicate OneAtom(alts: seq<Branch>) {
    |alts| == 1 && |alts[0].items| == 1 && alts[0].items[0].Atom? && alts[0].items[0].quant.Once?
  }

  // Quantifiers stand on single characters and on groups of one character only.
  predicate Regular(it: Item)
    decreases it, 1
  {
    it.Group? ==> RegularAlts(it.alts) && (it.quant.Once? || OneAtom(it.alts))
  }

  predicate RegularAlts(alts: seq<Branch>)
    decreases alts, 0
  {
    alts != [] ==> RegularSeq(alts[0].items) && RegularAlts(alts[1..])
  }

  predicate RegularSeq(items: seq<Item>)
    decreases items, 0
  {
    items != [] ==> Regular(items[0]) && RegularSeq(items[1..])
  }

  // ---- code ----

  function Len(it: Item): nat
    decreases it, 1
  {
    match it
    case Atom(_, q, _) => if q.Once? then 1 else 2
    case Zero(_) => 1
    case Group(alts, _, q, _) => LenAlts(alts) + if q.Once? then 0 else 1
  }

  function LenSeq(items: seq<Item>): nat
    decreases items, 0
  {
    if items == [] then 0 else Len(items[0]) + LenSeq(items[1..])
  }

  lemma LenSeqMeans(items: seq<Item>)
    requires items != []
    ensures LenSeq(items) == Len(items[0]) + LenSeq(items[1..])
  {
  }

  // Alternatives one after the other; each but the last is followed by a jump.
  function LenBodies(alts: seq<Branch>): nat
    decreases alts, 0
  {
    if alts == [] then 0
    else if |alts| == 1 then LenSeq(alts[0].items)
    else LenSeq(alts[0].items) + 1 + LenBodies(alts[1..])
  }

  function LenAlts(alts: seq<Branch>): nat
    decreases alts, 1
  {
    if alts == [] then 0 else |alts| - 1 + LenBodies(alts)
  }

  // Where a sequence placed at `base` is entered.
  function Entry(items: seq<Item>, base: nat, exit: nat): nat {
    if LenSeq(items) == 0 then exit else base
  }

  // Redirects a character state; other states stay.
  function Patched(s: NfaState, next: nat): NfaState {
    if s.Match? then Match(s.node, next) else s
  }

  // What a quantifier makes of code at `base`: it rewrites the last state and adds one.
  function Requantified(code: seq<NfaState>, base: nat, q: Quant, exit: nat): (r: seq<NfaState>)
    requires code != []
    ensures |r| == |code| + if q.Once? then 0 else 1
  {
    var last := |code| - 1;
    match q
    case Once => code
    case Star => code[..last] + [Split(base + last + 1, exit), Patched(code[last], base + last)]
    case Plus => code[..last] + [Patched(code[last], base + last + 1), Split(base + last, exit)]
    case Optional => code[..last] + [Split(base + last + 1, exit), Patched(code[last], exit)]
  }

  // Code placed at `base` whose matches continue at `exit`.
  function Code(it: Item, base: nat, exit: nat): (r: seq<NfaState>)
    ensures |r| == Len(it)
    decreases it, 1
  {
    match it
    case Atom(shape, Once, _) => [Match(NodeOf(shape), exit)]
    case Atom(shape, Star, _) => [Split(base + 1, exit), Match(NodeOf(shape), base)]
    case Atom(shape, Plus, _) => [Match(NodeOf(shape), base + 1), Split(base, exit)]
    case Atom(shape, Optional, _) => [Split(base + 1, exit), Match(NodeOf(shape), exit)]
    case Zero(a) => [Match(Assert(a), exit)]
    case Group(alts, _, q, _) =>
      if q.Once? then CodeAlts(alts, base, exit)
      else if LenAlts(alts) == 0 then [Split(exit, exit)]
      else Requantified(CodeAlts(alts, base, base + LenAlts(alts)), base, q, exit)
  }

  function CodeSeq(items: seq<Item>, base: nat, exit: nat): (r: seq<NfaState>)
    ensures |r| == LenSeq(items)
    decreases items, 0
  {
    if items == [] then []
    else
      var mid := base + Len(items[0]);
      Code(items[0], base, Entry(items[1..], mid, exit)) + CodeSeq(items[1..], mid, exit)
  }

  // A chain of splits, then the alternatives.
  function CodeAlts(alts: seq<Branch>, base: nat, exit: nat): (r: seq<NfaState>)
    ensures |r| == LenAlts(alts)
    decreases alts, 2
  {
    if alts == [] then []
    else Chain(alts, base, base + |alts| - 1, exit) + Bodies(alts, base + |alts| - 1, exit)
  }

  // Where the code for the alternatives from the first of `alts` on is entered.
  function Head(alts: seq<Branch>, chain: nat, body: nat, exit: nat): nat
    requires alts != []
  {
    if |alts| > 1 then chain else Entry(alts[0].items, body, exit)
  }

  function Chain(alts: seq<Branch>, chain: nat, body: nat, exit: nat): (r: seq<NfaState>)
    requires alts != []
    ensures |r| == |alts| - 1
    decreases |alts|
  {
    if |alts| == 1 then []
    else
      var body' := body + LenSeq(alts[0].items) + 1;
      [Split(body, Head(alts[1..], chain + 1, body', exit))] + Chain(alts[1..], chain + 1, body', exit)
  }

  function Bodies(alts: seq<Branch>, body: nat, exit: nat): (r: seq<NfaState>)
    ensures |r| == LenBodies(alts)
    decreases alts, 1
  {
    if alts == [] then []
    else if |alts| == 1 then CodeSeq(alts[0].items, body, exit)
    else
      CodeSeq(alts[0].items, body, exit) + [Split(exit, exit)]
      + Bodies(alts[1..], body + LenSeq(alts[0].items) + 1, exit)
  }

  // The whole automaton.
  function CodeAll(alts: seq<Branch>): seq<NfaState> {
    CodeAlts(alts, 0, LenAlts(alts)) + [Accept]
  }
}
