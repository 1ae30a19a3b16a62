// The regex compiler as the source writes it: a cursor over the pattern, a
// growing state list, quantifiers that rewrite the last state, and alternatives
// that are compiled in place and then moved behind a chain of splits.  It runs
// on every pattern; on a pattern of the fragment it emits RegexCode's code.
module RegexCompiler {
  import opened Wrappers
  import opened RegexNfa
  import opened RegexCode
  import opened RegexText
  import opened RegexMove

  // The quantifier at `pos` and how many characters it takes, with the lazy mark.
  function QuantAt(chars: string, pos: nat): (Quant, nat) {
    if pos >= |chars| || !Quantifying(chars[pos]) then (Once, 0)
    else
      var q := if chars[pos] == '*' then Star else if chars[pos] == '+' then Plus else Optional;
      (q, if pos + 1 < |chars| && chars[pos + 1] == '?' then 2 else 1)
  }

  // What a quantifier makes of the last state.
  function Quantified(states: seq<NfaState>, q: Quant): seq<NfaState>
    requires q.Once? || states != []
  {
    var last := |states| - 1;
    match q
    case Once => states
    case Star => states[..last] + [Split(last + 1, last + 2), Patched(states[last], last)]
    case Plus => states[..last] + [Patched(states[last], last + 1), Split(last, last + 2)]
    case Optional => states[..last] + [Split(last + 1, last + 2), Patched(states[last], last + 2)]
  }

  lemma QuantRead(chars: string, pos: nat, q: Quant, lazy: bool, rest: string)
    requires Spells(chars, pos, PrintQuant(q, lazy), rest) && Follows(rest) && (q.Once? ==> !lazy)
    ensures QuantAt(chars, pos) == (q, |PrintQuant(q, lazy)|)
  {
    var text := PrintQuant(q, lazy);
    SpellsNext(chars, pos, text, rest);
    if |text| > 0 { SpellsChar(chars, pos, text, rest, 0); }
    if |text| > 1 { SpellsChar(chars, pos, text, rest, 1); }
  }

  // The code of an atom, by its matcher only.
  function AtomCode(node: Node, q: Quant, n: nat): seq<NfaState> {
    match q
    case Once => [Match(node, n + 1)]
    case Star => [Split(n + 1, n + 2), Match(node, n)]
    case Plus => [Match(node, n + 1), Split(n, n + 2)]
    case Optional => [Split(n + 1, n + 2), Match(node, n + 2)]
  }

  lemma CodeChar(it: Item, n: nat)
    requires !it.Group?
    ensures Code(it, n, n + Len(it)) == AtomCode(ItemNode(it), if it.Atom? then it.quant else Once, n)
  {
    hide NodeOf;
  }

  lemma QuantCodeNode(before: seq<NfaState>, node: Node, q: Quant)
    ensures Quantified(before + [Match(node, |before| + 1)], q) == before + AtomCode(node, q, |before|)
  {
    var n := |before|;
    assert (before + [Match(node, n + 1)])[..n] == before;
  }

  lemma SeqDirect(items: seq<Item>, b: nat)
    requires items != []
    ensures var mid := b + Len(items[0]);
      CodeSeq(items, b, b + LenSeq(items)) == Code(items[0], b, mid) + CodeSeq(items[1..], mid, mid + LenSeq(items[1..]))
  {
  }

  // ---- what the recorded ranges of the alternatives hold ----

  type Range = (nat, nat)

  // Ranges lie one after the other from `base` to `end`.
  predicate Adjacent(ranges: seq<Range>, base: nat, end: nat) {
    && (ranges == [] ==> base == end)
    && (ranges != [] ==> ranges[0].0 == base && ranges[|ranges|-1].1 == end)
    && (forall k | 0 <= k < |ranges| :: base <= ranges[k].0 <= ranges[k].1 <= end)
    && (forall k | 0 <= k < |ranges| - 1 :: ranges[k].1 == ranges[k + 1].0)
  }

  lemma AdjacentNone(base: nat)
    ensures Adjacent([], base, base)
  {
  }

  lemma AdjacentMore(ranges: seq<Range>, base: nat, start: nat, end: nat)
    requires Adjacent(ranges, base, start) && base <= start <= end
    ensures Adjacent(ranges + [(start, end)], base, end)
  {
  }

  lemma KeepsFront(front: seq<NfaState>, was: seq<NfaState>, code: seq<NfaState>)
    requires |front| <= |was| && was[..|front|] == front
    ensures (was + code)[..|front|] == front
  {
  }

  ghost predicate HoldsAlt(states: seq<NfaState>, r: Range, items: seq<Item>) {
    r.0 <= r.1 <= |states| && r.1 - r.0 == LenSeq(items) && states[r.0..r.1] == CodeSeq(items, r.0, r.1)
  }

  ghost predicate HoldsAlts(states: seq<NfaState>, ranges: seq<Range>, alts: seq<Branch>) {
    |ranges| <= |alts| && forall k | 0 <= k < |ranges| :: HoldsAlt(states, ranges[k], alts[k].items)
  }

  lemma HoldsMore(states: seq<NfaState>, states': seq<NfaState>, ranges: seq<Range>, alts: seq<Branch>, base: nat)
    requires HoldsAlts(states, ranges, alts) && Adjacent(ranges, base, |states|) && |ranges| < |alts|
    requires states' == states + CodeSeq(alts[|ranges|].items, |states|, |states| + LenSeq(alts[|ranges|].items))
    ensures HoldsAlts(states', ranges + [(|states|, |states'|)], alts)
  {
    hide CodeSeq, LenSeq, HoldsAlt;
    var more := ranges + [(|states|, |states'|)];
    var items := alts[|ranges|].items;
    var code := CodeSeq(items, |states|, |states| + LenSeq(items));
    forall k | 0 <= k < |more| ensures HoldsAlt(states', more[k], alts[k].items) {
      if k < |ranges| {
        HoldsKept(states, code, ranges[k], alts[k].items);
      } else {
        HoldsLast(states, items);
      }
    }
  }

  lemma HoldsKept(states: seq<NfaState>, code: seq<NfaState>, r: Range, items: seq<Item>)
    requires HoldsAlt(states, r, items)
    ensures HoldsAlt(states + code, r, items)
  {
    hide CodeSeq, LenSeq;
    assert (states + code)[r.0..r.1] == states[r.0..r.1];
  }

  lemma HoldsLast(states: seq<NfaState>, items: seq<Item>)
    ensures var all := states + CodeSeq(items, |states|, |states| + LenSeq(items));
      HoldsAlt(all, (|states|, |all|), items)
  {
    hide CodeSeq, LenSeq;
    var code := CodeSeq(items, |states|, |states| + LenSeq(items));
    assert (states + code)[|states|..|states + code|] == code;
  }

  // Where each alternative starts in the moved layout, counted from the base; one extra entry for the end.
  function StartsOf(alts: seq<Branch>, k: nat): nat
    requires k <= |alts| && alts != []
  {
    if k == 0 then |alts| - 1 else StartsOf(alts, k - 1) + LenSeq(alts[k - 1].items) + 1
  }

  lemma {:induction false} StartsEnd(alts: seq<Branch>, k: nat)
    requires k < |alts|
    ensures StartsOf(alts, |alts|) == StartsOf(alts, k) + LenBodies(alts[k..]) + 1
    decreases |alts| - k
  {
    var rest := alts[k..];
    assert rest[0] == alts[k];
    if k == |alts| - 1 {
      assert |rest| == 1;
    } else {
      assert rest[1..] == alts[k + 1..];
      StartsEnd(alts, k + 1);
    }
  }

  // ---- targets ----

  predicate Below(s: NfaState, n: nat) {
    match s
    case Match(_, next) => next <= n
    case Split(a, b) => a <= n && b <= n
    case Accept => true
  }

  predicate AllBelow(states: seq<NfaState>, n: nat) {
    forall i | 0 <= i < |states| :: Below(states[i], n)
  }

  // Every target is a state or the one that comes next.
  predicate InRange(states: seq<NfaState>) {
    AllBelow(states, |states|)
  }

  lemma PushedInRange(states: seq<NfaState>, node: Node)
    requires InRange(states)
    ensures InRange(states + [Match(node, |states| + 1)])
  {
  }

  lemma QuantifiedInRange(states: seq<NfaState>, q: Quant)
    requires InRange(states) && (q.Once? || states != [])
    ensures InRange(Quantified(states, q))
  {
  }

  // The room the first `k` alternatives take in the moved layout, each with one state more.
  function Room(ranges: seq<Range>, k: nat): (r: nat)
    requires k <= |ranges| && forall h | 0 <= h < |ranges| :: ranges[h].0 <= ranges[h].1
    ensures r >= k
  {
    if k == 0 then 0 else Room(ranges, k - 1) + (ranges[k - 1].1 - ranges[k - 1].0) + 1
  }

  lemma {:induction false} RoomGrows(ranges: seq<Range>, k: nat, h: nat)
    requires k <= h <= |ranges| && forall i | 0 <= i < |ranges| :: ranges[i].0 <= ranges[i].1
    ensures Room(ranges, k) <= Room(ranges, h)
  {
    if k < h { RoomGrows(ranges, k, h - 1); }
  }

  lemma {:induction false} RoomSum(ranges: seq<Range>, base: nat, end: nat, k: nat)
    requires Adjacent(ranges, base, end) && 0 < k <= |ranges|
    ensures base + Room(ranges, k) == ranges[k - 1].1 + k
  {
    if k > 1 {
      RoomSum(ranges, base, end, k - 1);
      assert ranges[k - 2].1 == ranges[k - 2 + 1].0;
    }
  }

  // Where the moved alternatives start.
  ghost predicate Started(starts: seq<nat>, ranges: seq<Range>) {
    && |starts| <= |ranges| && (forall h | 0 <= h < |ranges| :: ranges[h].0 <= ranges[h].1)
    && forall k | 0 <= k < |starts| :: starts[k] == |ranges| - 1 + Room(ranges, k)
  }

  lemma StartedAt(starts: seq<nat>, ranges: seq<Range>, k: nat)
    requires Started(starts, ranges) && k < |starts| == |ranges|
    ensures starts[k] == |ranges| - 1 + Room(ranges, k) && Room(ranges, k + 1) == Room(ranges, k) + (ranges[k].1 - ranges[k].0) + 1
    ensures Room(ranges, k + 1) <= Room(ranges, |ranges|)
  {
    RoomGrows(ranges, k + 1, |ranges|);
  }

  lemma NoRoom(ranges: seq<Range>, base: nat)
    requires forall h | 0 <= h < |ranges| :: base <= ranges[h].0 <= ranges[h].1
    ensures Started([], ranges) && Room(ranges, 0) == 0
  {
  }

  lemma StartedMore(starts: seq<nat>, ranges: seq<Range>, offset: nat)
    requires Started(starts, ranges) && |starts| < |ranges| && offset == |ranges| - 1 + Room(ranges, |starts|)
    ensures Started(starts + [offset], ranges)
    ensures var r := ranges[|starts|]; r.0 <= r.1 && offset + (r.1 - r.0) + 1 == |ranges| - 1 + Room(ranges, |starts| + 1)
  {
  }

  lemma StartsBelow(starts: seq<nat>, ranges: seq<Range>, base: nat, exit: nat)
    requires Started(starts, ranges) && |starts| == |ranges| && exit + 1 == base + |ranges| - 1 + Room(ranges, |ranges|)
    ensures forall k | 0 <= k < |starts| :: base + starts[k] <= exit && |starts| - 1 <= starts[k]
  {
    forall k | 0 <= k < |starts| ensures base + starts[k] <= exit && |starts| - 1 <= starts[k] {
      StartedAt(starts, ranges, k);
    }
  }

  lemma RoomTotal(ranges: seq<Range>, base: nat, end: nat)
    requires |ranges| > 1 && Adjacent(ranges, base, end)
    ensures base + Room(ranges, |ranges|) == end + |ranges|
  {
    RoomSum(ranges, base, end, |ranges|);
  }

  lemma {:induction false} MovedBelow(m: Shift, code: seq<NfaState>, exit: nat)
    requires AllMovable(m, code) && m.from <= m.end && m.to + (m.end - m.from) <= exit && m.exit == exit
    ensures AllBelow(Moved(m, code), exit)
  {
    if code != [] {
      assert MovableState(m, code[0]);
      MovedBelow(m, code[1..], exit);
    }
  }

  class Compiler {
    const chars: string
    var pos: nat
    var states: seq<NfaState>

    ghost predicate Valid()
      reads this`pos
    {
      pos <= |chars|
    }

    constructor (pattern: string)
      ensures chars == pattern && pos == 0 && states == []
    {
      chars, pos, states := pattern, 0, [];
    }

    method Push(node: Node)
      modifies this`states
      ensures states == old(states) + [Match(node, |old(states)| + 1)]
      ensures InRange(old(states)) ==> InRange(states)
    {
      if InRange(states) { PushedInRange(states, node); }
      states := states + [Match(node, |states| + 1)];
    }

    // `false` where the source would index before the first state.
    method ApplyQuantifier() returns (ok: bool)
      requires Valid()
      modifies this`pos, this`states
      ensures Valid() && pos >= old(pos) && |states| >= |old(states)|
      ensures ok <==> QuantAt(chars, old(pos)).0.Once? || old(states) != []
      ensures ok ==> pos == old(pos) + QuantAt(chars, old(pos)).1
      ensures ok ==> states == Quantified(old(states), QuantAt(chars, old(pos)).0)
      ensures ok && InRange(old(states)) ==> InRange(states)
    {
      hide InRange;
      if InRange(states) && (QuantAt(chars, pos).0.Once? || states != []) { QuantifiedInRange(states, QuantAt(chars, pos).0); }
      if pos >= |chars| || !Quantifying(chars[pos]) {
        return true;
      }
      var q := chars[pos];
      pos := pos + 1;
      if states == [] {
        return false;
      }
      var last := |states| - 1;
      if q == '*' {
        var node := states[last];
        states := states[..last] + [Split(last + 1, last + 2)] + [Patched(node, last)];
      } else if q == '+' {
        states := states[last := Patched(states[last], last + 1)];
        states := states + [Split(last, last + 2)];
      } else {
        var node := states[last];
        states := states[..last] + [Split(last + 1, last + 2)] + [Patched(node, last + 2)];
      }
      if pos < |chars| && chars[pos] == '?' {
        pos := pos + 1;
      }
      return true;
    }

    // The inside of a bracket class, up to and with the closing bracket.  POSIX names are not modelled.
    method ParseClass(ghost want: seq<Member>, ghost neg: bool, ghost rest: string)
        returns (ok: bool, ranges: seq<(char, char)>, negated: bool)
      requires Valid()
      modifies this`pos
      ensures Valid() && pos >= old(pos)
      ensures Spells(chars, old(pos), (if neg then "^" else "") + PrintMembers(want) + "]", rest) && WellShape(Class(want, neg)) ==>
        ok && ranges == RangesOf(want) && negated == neg && Spells(chars, pos, "", rest)
    {
      hide PrintMembers, Spells, WellMembers, RangesOf;
      ghost var fits := Spells(chars, pos, (if neg then "^" else "") + PrintMembers(want) + "]", rest) && WellShape(Class(want, neg));
      if fits { ClassBegins(chars, pos, want, neg, rest); }
      negated := pos < |chars| && chars[pos] == '^';
      if negated { pos := pos + 1; }
      ranges := [];
      ghost var todo := want;
      while pos < |chars| && chars[pos] != ']'
        invariant Valid() && pos >= old(pos)
        invariant fits ==> negated == neg && |ranges| <= |want| && ranges == RangesOf(want[..|ranges|]) && todo == want[|ranges|..]
        invariant fits ==> WellMembers(todo) && Spells(chars, pos, PrintMembers(todo) + "]", rest)
        decreases |chars| - pos
      {
        if fits { MemberReads(chars, pos, todo, rest); }
        if pos + 2 < |chars| && chars[pos] == '[' && chars[pos + 1] == ':' {
          return false, [], false;
        }
        var c := chars[pos];
        pos := pos + 1;
        if pos + 1 < |chars| && chars[pos] == '-' && chars[pos + 1] != ']' {
          pos := pos + 1;
          var end := chars[pos];
          pos := pos + 1;
          ranges := ranges + [(c, end)];
        } else {
          ranges := ranges + [(c, c)];
        }
        if fits {
          MembersStep(want, todo, ranges);
          todo := todo[1..];
        }
      }
      if fits { ClassEnds(chars, pos, todo, rest); assert want[..|ranges|] == want; }
      if pos < |chars| && chars[pos] == ']' {
        pos := pos + 1;
      }
      ok := true;
    }

    // One character matcher or word-boundary escape, without its quantifier.
    method PushChar(ghost it: Item, ghost rest: string) returns (ok: bool)
      requires Valid() && pos < |chars|
      modifies this`pos, this`states
      ensures Valid() && pos > old(pos) && |states| >= |old(states)|
      ensures ok && InRange(old(states)) ==> InRange(states)
      ensures CharFits(chars, old(pos), it, rest) ==>
        && ok && states == old(states) + [Match(ItemNode(it), |old(states)| + 1)]
        && Spells(chars, pos, "", ItemQuant(it) + rest)
    {
      hide InRange, NodeOf, EscapeNode, PrintShape, PrintQuant, PrintItem, Well, WellShape, Spells;
      ghost var fits := CharFits(chars, pos, it, rest);
      if fits { CharReads(chars, pos, it, rest); }
      var c := chars[pos];
      pos := pos + 1;
      if c == '[' {
        ghost var want, neg := if fits then it.shape.members else [], fits && it.shape.negated;
        var parsed, ranges, negated := ParseClass(want, neg, ItemQuant(it) + rest);
        if !parsed { return false; }
        Push(CharClass(ranges, negated));
      } else if c == '.' {
        Push(AnyChar);
      } else if c == '\\' {
        if pos >= |chars| { return false; }
        var e := chars[pos];
        if (e == 'p' || e == 'P') && pos + 1 < |chars| && chars[pos + 1] == '{' { return false; }
        pos := pos + 1;
        Push(EscapeNode(e));
      } else {
        Push(Literal(c));
      }
      ok := true;
    }

    method CompileChar(ghost it: Item, ghost rest: string) returns (ok: bool)
      requires Valid() && pos < |chars|
      modifies this`pos, this`states
      ensures Valid() && pos > old(pos) && |states| >= |old(states)|
      ensures ok && InRange(old(states)) ==> InRange(states)
      ensures CharFits(chars, old(pos), it, rest) ==>
        ok && Spells(chars, pos, "", rest) && states == old(states) + Code(it, |old(states)|, |old(states)| + Len(it))
    {
      hide InRange, Code, Len, ItemQuant, ItemNode, Spells, Quantified, QuantAt, Well, PrintItem;
      ghost var fits := CharFits(chars, pos, it, rest);
      ok := PushChar(it, rest);
      if !ok { return; }
      if fits { CharDone(chars, pos, it, rest, old(states)); }
      ok := ApplyQuantifier();
    }

    // The items of one alternative, up to a bar, a closing parenthesis or the end.
    method CompileAlt(ghost items: seq<Item>, ghost tail: string) returns (ok: bool)
      requires Valid()
      modifies this`pos, this`states
      ensures Valid() && pos >= old(pos) && |states| >= |old(states)|
      ensures ok && InRange(old(states)) ==> InRange(states)
      ensures SeqFits(chars, old(pos), items, tail) ==>
        && ok && Spells(chars, pos, "", tail)
        && states == old(states) + CodeSeq(items, |old(states)|, |old(states)| + LenSeq(items))
      decreases |chars| - pos, 1
    {
      hide InRange, CodeSeq, LenSeq, Code, Len, PrintItem, PrintSeq, WellSeq, Well, Spells, SeqFits, ItemFits, Follows, EndsAlt;
      ghost var fits := SeqFits(chars, pos, items, tail);
      ghost var base := |states|;
      ghost var todo := items;
      ghost var done: seq<NfaState> := [];
      assert [] + CodeSeq(items, base, base + LenSeq(items)) == CodeSeq(items, base, base + LenSeq(items));
      while pos < |chars| && chars[pos] != '|' && chars[pos] != ')'
        invariant Valid() && pos >= old(pos) && |states| >= base
        invariant InRange(old(states)) ==> InRange(states)
        invariant fits ==> SeqFits(chars, pos, todo, tail) && states == old(states) + done
        invariant fits ==> CodeSeq(items, base, base + LenSeq(items)) == done + CodeSeq(todo, |states|, |states| + LenSeq(todo))
        decreases |chars| - pos
      {
        ghost var it: Item, rest: string, was, from := Zero(LineStart), "", states, pos;
        if fits {
          ItemNext(chars, pos, todo, tail);
          it, rest := todo[0], PrintSeq(todo[1..]) + tail;
          SeqDirect(todo, |states|);
        }
        var c := chars[pos];
        if c == '(' {
          ok := CompileGroup(it, rest);
        } else if c == '^' || c == '$' {
          pos := pos + 1;
          Push(Assert(if c == '^' then LineStart else LineEnd));
          ok := true;
          if fits { LineDone(chars, pos, it, rest, was); }
        } else if Quantifying(c) {
          ok := false;
        } else {
          ok := CompileChar(it, rest);
        }
        if fits {
          assert ok && Spells(chars, pos, "", rest) && states == was + Code(it, |was|, |was| + Len(it));
          SeqAdvance(chars, from, pos, todo, tail);
          DoneMore(old(states), was, states, items, base, done, todo);
          done := done + Code(it, |was|, |was| + Len(it));
          todo := todo[1..];
        }
        if !ok { return; }
      }
      ok := true;
      if fits { AltEnds(chars, pos, todo, tail, |states|); assert done + [] == done; }
    }

    method CompileGroup(ghost it: Item, ghost rest: string) returns (ok: bool)
      requires Valid() && pos < |chars| && chars[pos] == '('
      modifies this`pos, this`states
      ensures Valid() && pos > old(pos) && |states| >= |old(states)|
      ensures ok && InRange(old(states)) ==> InRange(states)
      ensures ItemFits(chars, old(pos), it, rest) ==>
        ok && Spells(chars, pos, "", rest) && states == old(states) + Code(it, |old(states)|, |old(states)| + Len(it))
      decreases |chars| - pos, 0
    {
      hide InRange, CodeAlts, LenAlts, PrintItem, PrintAlts, WellAlts, Well, PrintQuant, Quantified;
      ghost var fits := ItemFits(chars, pos, it, rest);
      ghost var alts: seq<Branch>, q, lazy := [], Once, false;
      if fits {
        GroupReads(chars, pos, it, rest);
        alts, q, lazy := it.alts, it.quant, it.lazy;
      }
      pos := pos + 1;
      if pos < |chars| && chars[pos] == '?' {
        pos := pos + 1;
        if pos < |chars| {
          if chars[pos] == '=' || chars[pos] == '!' { return false; }
          if chars[pos] == '<' && pos + 1 < |chars| && (chars[pos + 1] == '=' || chars[pos + 1] == '!') { return false; }
          if chars[pos] == ':' { pos := pos + 1; }
          ok := CloseGroup(alts, q, lazy, rest);
        } else {
          ok := true;
        }
      } else {
        ok := CloseGroup(alts, q, lazy, rest);
      }
      if fits { GroupCode(it, old(states)); }
    }

    // The inside of a group, its closing parenthesis and what the source makes of a quantifier after it:
    // it is applied to the last state of the group's code.
    method CloseGroup(ghost alts: seq<Branch>, ghost q: Quant, ghost lazy: bool, ghost rest: string) returns (ok: bool)
      requires Valid()
      modifies this`pos, this`states
      ensures Valid() && pos >= old(pos) && |states| >= |old(states)|
      ensures ok && InRange(old(states)) ==> InRange(states)
      ensures GroupFits(chars, old(pos), alts, q, lazy, rest) ==>
        && ok && Spells(chars, pos, "", rest)
        && (q.Once? || old(states) + CodeAlts(alts, |old(states)|, |old(states)| + LenAlts(alts)) != [])
        && states == Quantified(old(states) + CodeAlts(alts, |old(states)|, |old(states)| + LenAlts(alts)), q)
      decreases |chars| - pos, 3
    {
      hide InRange, CodeAlts, LenAlts, PrintAlts, WellAlts, PrintQuant, Quantified, QuantAt;
      ghost var fits := GroupFits(chars, pos, alts, q, lazy, rest);
      ok := CompileSeq(alts, ")" + (PrintQuant(q, lazy) + rest));
      if !ok { return; }
      if fits { Closing(chars, pos, PrintQuant(q, lazy) + rest); }
      if pos < |chars| && chars[pos] == ')' { pos := pos + 1; }
      if fits { GroupQuant(chars, pos, q, lazy, rest); }
      ok := ApplyQuantifier();
    }

    // The scan for a bar at this level, blind to escapes and brackets.
    method ScanAlternatives() returns (r: bool)
      requires Valid()
      ensures r == HasAlt(chars[pos..], 0)
    {
      var depth: nat := 0;
      var i := pos;
      while i < |chars|
        invariant pos <= i <= |chars| && HasAlt(chars[i..], depth) == HasAlt(chars[pos..], 0)
      {
        var c := chars[i];
        assert chars[i..][1..] == chars[i + 1..];
        if c == '(' {
          depth := depth + 1;
        } else if c == ')' {
          if depth == 0 { return false; }
          depth := depth - 1;
        } else if c == '|' && depth == 0 {
          return true;
        }
        i := i + 1;
      }
      return false;
    }

    method CompileSeq(ghost alts: seq<Branch>, ghost tail: string) returns (ok: bool)
      requires Valid()
      modifies this`pos, this`states
      ensures Valid() && pos >= old(pos) && |states| >= |old(states)|
      ensures ok && InRange(old(states)) ==> InRange(states)
      ensures AltsFit(chars, old(pos), alts, tail) ==>
        && ok && Spells(chars, pos, "", tail)
        && states == old(states) + CodeAlts(alts, |old(states)|, |old(states)| + LenAlts(alts))
      decreases |chars| - pos, 2
    {
      hide InRange, CodeAlts, CodeSeq, LenAlts, PrintAlts, PrintSeq, WellAlts, WellSeq, HasAlt;
      ghost var fits := AltsFit(chars, pos, alts, tail);
      if fits { AltsScan(chars, pos, alts, tail); }
      var found := ScanAlternatives();
      if !found {
        ok := CompileAlt(if fits then alts[0].items else [], tail);
        if fits { OneAlternative(alts, |old(states)|); }
        return;
      }
      var base := |states|;
      var ranges;
      ok, ranges := CompileEach(alts, tail);
      if !ok || |ranges| <= 1 { return; }
      var flat;
      ok, flat := MoveAll(ranges, base, alts);
      if !ok { return; }
      if InRange(states) { FlatInRange(states, base, flat); }
      states := states[..base] + flat;
    }

    // Each alternative in place, one after the other.
    method CompileEach(ghost alts: seq<Branch>, ghost tail: string) returns (ok: bool, ranges: seq<Range>)
      requires Valid()
      modifies this`pos, this`states
      ensures Valid() && pos >= old(pos) && |states| >= |old(states)|
      ensures ok && InRange(old(states)) ==> InRange(states)
      ensures ok ==> Adjacent(ranges, |old(states)|, |states|)
      ensures AltsFit(chars, old(pos), alts, tail) ==>
        && ok && Spells(chars, pos, "", tail) && |ranges| == |alts| && HoldsAlts(states, ranges, alts)
        && |old(states)| <= |states| && states[..|old(states)|] == old(states)
      decreases |chars| - pos, 2, 0
    {
      hide InRange, CodeSeq, LenSeq, PrintAlts, PrintSeq, WellAlts, WellSeq, HoldsAlt, Reading, SeqFits, RestAfter, HoldsAlts, AltsFit, Adjacent, Spells;
      ghost var fits := AltsFit(chars, pos, alts, tail);
      ranges := [];
      if fits { ReadFirst(chars, pos, alts, tail, states); }
      AdjacentNone(|states|);
      var more := true;
      while more
        invariant Valid() && pos >= old(pos) && |states| >= |old(states)| && Adjacent(ranges, |old(states)|, |states|)
        invariant InRange(old(states)) ==> InRange(states)
        invariant fits ==> HoldsAlts(states, ranges, alts) && states[..|old(states)|] == old(states)
        invariant fits ==> Reading(chars, pos, alts, tail, |ranges|, more)
        decreases |chars| - pos, more
      {
        var start := |states|;
        ghost var was, n, from := states, |ranges|, pos;
        if fits { ReadNext(chars, pos, alts, tail, n); }
        ok := CompileAlt(if fits then alts[n].items else [], if fits then RestAfter(alts, n, tail) else "");
        if !ok { return; }
        if fits {
          HoldsMore(was, states, ranges, alts, |old(states)|);
          ReadDone(chars, from, pos, alts, tail, n);
          KeepsFront(old(states), was, CodeSeq(alts[n].items, |was|, |was| + LenSeq(alts[n].items)));
        }
        AdjacentMore(ranges, |old(states)|, start, |states|);
        ranges := ranges + [(start, |states|)];
        if pos < |chars| && chars[pos] == '|' {
          pos := pos + 1;
        } else {
          more := false;
        }
      }
      if fits { ReadAll(chars, pos, alts, tail, |ranges|); }
      ok := true;
    }

    // The chain of splits, then the alternatives moved behind it.  `false` where the source's subtraction underflows.
    method MoveAll(ranges: seq<Range>, base: nat, ghost alts: seq<Branch>) returns (ok: bool, flat: seq<NfaState>)
      requires |ranges| > 1 && Adjacent(ranges, base, |states|)
      ensures HoldsAlts(states, ranges, alts) && |ranges| == |alts| ==> ok && flat == CodeAlts(alts, base, base + LenAlts(alts))
      ensures ok ==> |states| <= base + |flat| && AllBelow(flat, base + |flat|)
    {
      hide CodeSeq, LenSeq, LenAlts, HoldsAlt, CodeAlts, StartsOf, Chain, Bodies, AllBelow, Room, Started;
      ghost var fits := HoldsAlts(states, ranges, alts) && |ranges| == |alts|;
      var n := |ranges|;
      var starts: seq<nat>, offset: nat := [], n - 1;
      if fits { StartsFirst(alts); }
      NoRoom(ranges, base);
      for k := 0 to n
        invariant |starts| == k && offset >= n - 1 && (k > 0 ==> offset >= n)
        invariant Started(starts, ranges) && offset == n - 1 + Room(ranges, k)
        invariant fits ==> offset == StartsOf(alts, k) && StartsAt(starts, alts)
      {
        if fits {
          RangeLength(states, ranges, alts, k);
          StartsNext(alts, k);
        }
        StartedMore(starts, ranges, offset);
        starts := starts + [offset];
        offset := offset + (ranges[k].1 - ranges[k].0) + 1;
      }
      var exit := base + offset - 1;
      if fits { ExitPlace(alts, base); }
      RoomTotal(ranges, base, |states|);
      StartsBelow(starts, ranges, base, exit);
      var chain := SplitChain(starts, base, exit, alts, fits);
      var bodies;
      ok, bodies := MoveBodies(ranges, base, starts, exit, alts, fits);
      flat := chain + bodies;
      if ok { BothBelow(chain, bodies, exit); }
      if fits { AltsJoin(alts, base, exit); }
    }

    method SplitChain(starts: seq<nat>, base: nat, exit: nat, ghost alts: seq<Branch>, ghost fits: bool) returns (chain: seq<NfaState>)
      requires |starts| > 1
      requires forall k | 0 <= k < |starts| :: base + starts[k] <= exit && |starts| - 1 <= starts[k]
      ensures |chain| == |starts| - 1 && AllBelow(chain, exit)
      requires fits ==> |alts| == |starts| && StartsAt(starts, alts) && exit == base + StartsOf(alts, |alts|) - 1
      ensures fits ==> chain == Chain(alts, base, base + |alts| - 1, exit)
    {
      hide LenSeq, Chain, StartsOf, StartsAt, ChainedTo;
      var n := |starts|;
      chain := [];
      if fits { ChainedFirst(alts, base, exit); }
      for i := 0 to n - 1
        invariant |chain| == i && AllBelow(chain, exit)
        invariant fits ==> ChainedTo(alts, base, exit, chain, i)
      {
        var right := if i + 1 < n - 1 then i + 1 else starts[i + 1];
        if fits {
          StartAt(starts, alts, i);
          StartAt(starts, alts, i + 1);
          ChainedNext(alts, base, exit, chain, i, base + starts[i], base + right);
        }
        chain := chain + [Split(base + starts[i], base + right)];
      }
      if fits { ChainedLast(alts, base, exit, chain); }
    }

    method MoveBodies(ranges: seq<Range>, base: nat, starts: seq<nat>, exit: nat, ghost alts: seq<Branch>, ghost fits: bool)
        returns (ok: bool, bodies: seq<NfaState>)
      requires |ranges| == |starts| > 1 && Adjacent(ranges, base, |states|)
      requires Started(starts, ranges) && exit + 1 == base + |ranges| - 1 + Room(ranges, |ranges|)
      ensures ok ==> |bodies| + 1 == Room(ranges, |ranges|) && AllBelow(bodies, exit)
      requires fits ==>
        && |alts| == |starts| && HoldsAlts(states, ranges, alts) && StartsAt(starts, alts)
        && exit == base + StartsOf(alts, |alts|) - 1
      ensures fits ==> ok && bodies == Bodies(alts, base + |alts| - 1, exit)
    {
      hide LenSeq, Bodies, StartsOf, CodeSeq, HoldsAlt, HoldsAlts, StartsAt, BodiedTo, Moved, AllMovable;
      var n := |ranges|;
      bodies := [];
      if fits { BodiedFirst(alts, base, exit); }
      for i := 0 to n
        invariant |bodies| + (if i == n then 1 else 0) == Room(ranges, i) && AllBelow(bodies, exit)
        invariant fits ==> BodiedTo(alts, base, exit, bodies, i)
      {
        StartedAt(starts, ranges, i);
        var m := Shift(ranges[i].0, ranges[i].1, base + starts[i], exit);
        var moved;
        ok, moved := MoveOne(m);
        if fits {
          StartAt(starts, alts, i);
          BodyMoves(states, ranges, alts, i, m);
        }
        if !ok { return; }
        MovedBelow(m, states[m.from..m.end], exit);
        if fits { BodiedNext(alts, base, exit, bodies, i, moved); }
        bodies := bodies + moved;
        if i < n - 1 { bodies := bodies + [Split(exit, exit)]; }
      }
      ok := true;
      if fits { BodiedLast(alts, base, exit, bodies); }
    }

    // One alternative with its targets rewritten.
    method MoveOne(m: Shift) returns (ok: bool, moved: seq<NfaState>)
      requires m.from <= m.end <= |states|
      ensures ok <==> AllMovable(m, states[m.from..m.end])
      ensures ok ==> moved == Moved(m, states[m.from..m.end])
    {
      moved := [];
      ghost var part := states[m.from..m.end];
      for j := m.from to m.end
        invariant moved == Moved(m, part[..j - m.from])
        invariant AllMovable(m, part[..j - m.from])
      {
        if !MovableState(m, states[j]) {
          assert part[j - m.from] == states[j];
          return false, [];
        }
        MovedAppend(m, part[..j - m.from], states[j]);
        assert part[..j - m.from] + [states[j]] == part[..j + 1 - m.from];
        moved := moved + [MovedState(m, states[j])];
      }
      assert part[..m.end - m.from] == part;
      ok := true;
    }
  }

  lemma FlatInRange(states: seq<NfaState>, base: nat, flat: seq<NfaState>)
    requires InRange(states) && base <= |states| <= base + |flat| && AllBelow(flat, base + |flat|)
    ensures InRange(states[..base] + flat)
  {
    var all := states[..base] + flat;
    forall i | 0 <= i < |all| ensures Below(all[i], |all|) {
      if i < base { assert Below(states[i], |states|); } else { assert all[i] == flat[i - base]; }
    }
  }

  lemma BothBelow(a: seq<NfaState>, b: seq<NfaState>, n: nat)
    requires AllBelow(a, n) && AllBelow(b, n)
    ensures AllBelow(a + b, n)
  {
  }

  // The whole pattern; a stray closing parenthesis ends it early.
  method CompilePattern(pattern: string, ghost alts: seq<Branch>) returns (r: Option<seq<NfaState>>)
    ensures alts != [] && WellAlts(alts) && pattern == PrintAlts(alts) ==> r == Some(CodeAll(alts))
    ensures r.Some? ==> r.value != [] && AllBelow(r.value, |r.value| - 1)
  {
    hide CodeAlts, LenAlts, PrintAlts, WellAlts;
    var c := new Compiler(pattern);
    assert pattern == PrintAlts(alts) ==> pattern[0..] == PrintAlts(alts) + "";
    var ok := c.CompileSeq(alts, "");
    if !ok { return None; }
    assert [] + CodeAlts(alts, 0, LenAlts(alts)) == CodeAlts(alts, 0, LenAlts(alts));
    return Some(c.states + [Accept]);
  }

  // ---- reading the pattern ----

  ghost predicate ItemFits(chars: string, pos: nat, it: Item, rest: string) {
    Well(it) && Spells(chars, pos, PrintItem(it), rest) && Follows(rest)
  }

  ghost predicate CharFits(chars: string, pos: nat, it: Item, rest: string) {
    ItemFits(chars, pos, it, rest) && !it.Group? && it != Zero(LineStart) && it != Zero(LineEnd)
  }

  ghost predicate SeqFits(chars: string, pos: nat, items: seq<Item>, tail: string) {
    WellSeq(items) && Spells(chars, pos, PrintSeq(items), tail) && EndsAlt(tail)
  }

  ghost predicate AltsFit(chars: string, pos: nat, alts: seq<Branch>, tail: string) {
    alts != [] && WellAlts(alts) && Spells(chars, pos, PrintAlts(alts), tail) && Stops(tail)
  }

  lemma ClassBegins(chars: string, pos: nat, want: seq<Member>, neg: bool, rest: string)
    requires Spells(chars, pos, (if neg then "^" else "") + PrintMembers(want) + "]", rest) && WellShape(Class(want, neg))
    ensures pos < |chars| && (chars[pos] == '^') == neg && WellMembers(want)
    ensures RangesOf(want[..0]) == []
    ensures Spells(chars, if neg then pos + 1 else pos, PrintMembers(want) + "]", rest)
  {
    hide WellMembers;
    var body := PrintMembers(want) + "]";
    assert (if neg then "^" else "") + PrintMembers(want) + "]" == (if neg then "^" else "") + body;
    SpellsOn(chars, pos, if neg then "^" else "", body, rest);
    SpellsChar(chars, pos, (if neg then "^" else "") + body, rest, 0);
  }

  // The text of the first member and one character more.
  lemma MembersText(todo: seq<Member>)
    requires todo != []
    ensures PrintMembers(todo) + "]" == PrintMember(todo[0]) + (PrintMembers(todo[1..]) + "]")
    ensures PrintMembers(todo[1..]) + "]" != ""
    ensures (PrintMembers(todo[1..]) + "]")[0] == if |todo| > 1 then todo[1].a else ']'
    ensures |todo| == 2 && todo[1].Single? ==> PrintMembers(todo[1..]) + "]" == [todo[1].a, ']']
  {
    hide PrintMember, PrintMembers;
    MembersSplit(todo);
    MembersEnd(todo[1..]);
    ThreeTexts(PrintMember(todo[0]), PrintMembers(todo[1..]), "]");
  }

  lemma ThreeTexts(a: string, b: string, c: string)
    ensures a + b + c == a + (b + c)
  {
  }

  lemma MembersSplit(todo: seq<Member>)
    requires todo != []
    ensures PrintMembers(todo) == PrintMember(todo[0]) + PrintMembers(todo[1..])
  {
  }

  lemma MembersEnd(rest: seq<Member>)
    ensures PrintMembers(rest) + "]" != ""
    ensures (PrintMembers(rest) + "]")[0] == if rest != [] then rest[0].a else ']'
    ensures |rest| == 1 && rest[0].Single? ==> PrintMembers(rest) + "]" == [rest[0].a, ']']
  {
    if |rest| == 1 { assert rest[1..] == []; }
  }

  lemma MemberReads(chars: string, pos: nat, todo: seq<Member>, rest: string)
    requires Spells(chars, pos, PrintMembers(todo) + "]", rest) && WellMembers(todo) && pos < |chars| && chars[pos] != ']'
    ensures todo != [] && chars[pos] == todo[0].a && pos + 1 < |chars| && !(chars[pos] == '[' && chars[pos + 1] == ':')
    ensures todo[0].Span? <==> pos + 2 < |chars| && chars[pos + 1] == '-' && chars[pos + 2] != ']'
    ensures todo[0].Span? ==> chars[pos + 2] == todo[0].b
    ensures Spells(chars, pos + |PrintMember(todo[0])|, PrintMembers(todo[1..]) + "]", rest)
  {
    hide PrintMembers;
    MembersFirst(chars, pos, todo, rest);
    var one, more := PrintMember(todo[0]), PrintMembers(todo[1..]) + "]";
    MembersText(todo);
    SpellsOn(chars, pos, one, more, rest);
    SpellsChar(chars, pos, one, more + rest, 0);
    SpellsChar(chars, pos + |one|, more, rest, 0);
    if todo[0].Span? {
      SpellsChar(chars, pos, one, more + rest, 1);
      SpellsChar(chars, pos, one, more + rest, 2);
    } else if |todo| > 1 {
      assert WellPair(todo[0], todo[1], |todo| == 2);
      if todo[1].a == '-' { SpellsChar(chars, pos + 1, more, rest, 1); }
    }
  }

  // A closing bracket is written here exactly when no member is left.
  lemma MembersFirst(chars: string, pos: nat, todo: seq<Member>, rest: string)
    requires Spells(chars, pos, PrintMembers(todo) + "]", rest) && WellMembers(todo)
    ensures pos < |chars| && (chars[pos] == ']' <==> todo == [])
    ensures todo != [] ==> WellMember(todo[0])
  {
    if todo == [] {
      assert PrintMembers(todo) + "]" == "]";
    } else {
      MembersText(todo);
      assert WellMember(todo[0]);
    }
    SpellsChar(chars, pos, PrintMembers(todo) + "]", rest, 0);
  }

  lemma MembersStep(want: seq<Member>, todo: seq<Member>, ranges: seq<(char, char)>)
    requires 0 < |ranges| <= |want| && todo == want[|ranges| - 1..] && WellMembers(todo)
    requires ranges == RangesOf(want[..|ranges| - 1]) + [if todo[0].Single? then (todo[0].a, todo[0].a) else (todo[0].a, todo[0].b)]
    ensures ranges == RangesOf(want[..|ranges|]) && todo[1..] == want[|ranges|..] && WellMembers(todo[1..])
  {
    var n := |ranges|;
    assert want[..n] == want[..n - 1] + [todo[0]];
    assert forall i | 0 <= i < |todo| - 1 :: todo[1..][i] == todo[i + 1];
    forall i | 0 <= i < |todo[1..]| ensures WellMember(todo[1..][i]) {
      assert WellMember(todo[i + 1]);
    }
    forall i | 0 <= i < |todo[1..]| - 1
      ensures WellPair(todo[1..][i], todo[1..][i + 1], i + 1 == |todo[1..]| - 1)
    {
      assert WellPair(todo[i + 1], todo[i + 2], i + 2 == |todo| - 1);
    }
  }

  lemma ClassEnds(chars: string, pos: nat, todo: seq<Member>, rest: string)
    requires Spells(chars, pos, PrintMembers(todo) + "]", rest) && WellMembers(todo) && !(pos < |chars| && chars[pos] != ']')
    ensures todo == [] && pos < |chars| && chars[pos] == ']' && Spells(chars, pos + 1, "", rest)
  {
    MembersFirst(chars, pos, todo, rest);
    assert PrintMembers(todo) + "]" == "]";
    SpellsNext(chars, pos, "]", rest);
    assert "" + rest == rest;
  }

  // What the state of a character item matches, and the text of its quantifier.
  function ItemNode(it: Item): Node
    requires !it.Group?
  {
    if it.Atom? then NodeOf(it.shape) else Assert(it.anchor)
  }

  function ItemQuant(it: Item): string {
    if it.Atom? then PrintQuant(it.quant, it.lazy) else ""
  }

  // The text of one character matcher is its shape, then its quantifier.  The first character tells which shape it is.
  lemma CharReads(chars: string, pos: nat, it: Item, rest: string)
    requires CharFits(chars, pos, it, rest) && pos < |chars|
    ensures var c, more := chars[pos], ItemQuant(it) + rest;
      if c == '[' then
        && it.Atom? && it.shape.Class? && WellShape(it.shape) && ItemNode(it) == CharClass(RangesOf(it.shape.members), it.shape.negated)
        && Spells(chars, pos + 1, (if it.shape.negated then "^" else "") + PrintMembers(it.shape.members) + "]", more)
      else if c == '.' then
        ItemNode(it) == AnyChar && Spells(chars, pos + 1, "", more)
      else if c == '\\' then
        && pos + 1 < |chars| && chars[pos + 1] != 'p' && chars[pos + 1] != 'P' && ItemNode(it) == EscapeNode(chars[pos + 1])
        && Spells(chars, pos + 2, "", more)
      else
        ItemNode(it) == Literal(c) && Spells(chars, pos + 1, "", more)
  {
    hide EscapeNode, PrintQuant;
    if it.Zero? {
      BoundaryReads(chars, pos, it, rest);
    } else {
      var more := ItemQuant(it) + rest;
      SpellsOn(chars, pos, PrintShape(it.shape), ItemQuant(it), rest);
      ShapeReadsAt(chars, pos, it.shape, more);
    }
  }

  lemma BoundaryReads(chars: string, pos: nat, it: Item, rest: string)
    requires CharFits(chars, pos, it, rest) && it.Zero? && pos < |chars|
    ensures chars[pos] == '\\' && pos + 1 < |chars| && chars[pos + 1] != 'p' && chars[pos + 1] != 'P'
    ensures Assert(it.anchor) == EscapeNode(chars[pos + 1]) && Spells(chars, pos + 2, "", "" + rest)
  {
    SpellsChar(chars, pos, PrintItem(it), rest, 0);
    SpellsChar(chars, pos, PrintItem(it), rest, 1);
    SpellsNext(chars, pos, PrintItem(it), rest);
    assert "" + rest == rest && "" + ("" + rest) == rest;
  }

  lemma ShapeReadsAt(chars: string, pos: nat, shape: Shape, more: string)
    requires WellShape(shape) && Spells(chars, pos, PrintShape(shape), more)
    ensures pos < |chars|
    ensures var c := chars[pos];
      if c == '[' then
        && shape.Class?
        && Spells(chars, pos + 1, (if shape.negated then "^" else "") + PrintMembers(shape.members) + "]", more)
      else if c == '.' then shape.Dot? && Spells(chars, pos + 1, "", more)
      else if c == '\\' then
        && pos + 1 < |chars| && chars[pos + 1] != 'p' && chars[pos + 1] != 'P' && NodeOf(shape) == EscapeNode(chars[pos + 1])
        && Spells(chars, pos + 2, "", more)
      else shape == Plain(c) && Spells(chars, pos + 1, "", more)
  {
    hide EscapeNode, PrintMembers, WellMembers;
    SpellsChar(chars, pos, PrintShape(shape), more, 0);
    assert "" + more == more;
    if shape.Class? {
      var inner := (if shape.negated then "^" else "") + PrintMembers(shape.members) + "]";
      assert PrintShape(shape) == "[" + inner;
      SpellsOn(chars, pos, "[", inner, more);
    } else {
      if shape.Escape? { SpellsChar(chars, pos, PrintShape(shape), more, 1); }
      SpellsNext(chars, pos, PrintShape(shape), more);
    }
  }

  // Once the state is pushed, the quantifier makes the code.
  lemma CharDone(chars: string, pos: nat, it: Item, rest: string, before: seq<NfaState>)
    requires Well(it) && !it.Group? && Follows(rest) && Spells(chars, pos, "", ItemQuant(it) + rest)
    ensures Spells(chars, pos + QuantAt(chars, pos).1, "", rest)
    ensures Quantified(before + [Match(ItemNode(it), |before| + 1)], QuantAt(chars, pos).0) == before + Code(it, |before|, |before| + Len(it))
  {
    hide NodeOf, Quantified, AtomCode, Code, Len, ItemNode, ItemQuant, QuantAt, Spells, Well, Follows;
    QuantText(chars, pos, it, rest);
    CharCode(it, before);
  }

  lemma CharCode(it: Item, before: seq<NfaState>)
    requires !it.Group?
    ensures Quantified(before + [Match(ItemNode(it), |before| + 1)], if it.Atom? then it.quant else Once)
         == before + Code(it, |before|, |before| + Len(it))
  {
    hide NodeOf, Quantified, AtomCode, Code, Len, ItemNode;
    QuantCodeNode(before, ItemNode(it), if it.Atom? then it.quant else Once);
    CodeChar(it, |before|);
  }

  lemma QuantText(chars: string, pos: nat, it: Item, rest: string)
    requires Well(it) && !it.Group? && Follows(rest) && Spells(chars, pos, "", ItemQuant(it) + rest)
    ensures QuantAt(chars, pos).0 == if it.Atom? then it.quant else Once
    ensures Spells(chars, pos + QuantAt(chars, pos).1, "", rest)
  {
    hide WellShape;
    var q, lazy := if it.Atom? then it.quant else Once, it.Atom? && it.lazy;
    var text := ItemQuant(it);
    assert text == PrintQuant(q, lazy);
    assert "" + (text + rest) == text + rest && "" + rest == rest;
    QuantRead(chars, pos, q, lazy, rest);
    SpellsNext(chars, pos, text, rest);
  }

  // If the sequence does not end here, the next item is written here.
  lemma ItemNext(chars: string, pos: nat, todo: seq<Item>, tail: string)
    requires SeqFits(chars, pos, todo, tail) && pos < |chars| && chars[pos] != '|' && chars[pos] != ')'
    ensures todo != [] && ItemFits(chars, pos, todo[0], PrintSeq(todo[1..]) + tail)
    ensures chars[pos] == PrintItem(todo[0])[0] && PrintItem(todo[0]) != "" && !Quantifying(chars[pos])
    ensures chars[pos] == '(' <==> todo[0].Group?
    ensures chars[pos] == '^' <==> todo[0] == Zero(LineStart)
    ensures chars[pos] == '$' <==> todo[0] == Zero(LineEnd)
  {
    hide PrintItem;
    if todo != [] { ItemKind(todo[0]); }
    if todo == [] {
      assert "" + tail == tail;
      SpellsNext(chars, pos, "", tail);
    } else {
      ItemBegins(todo[0]);
      SpellsOn(chars, pos, PrintItem(todo[0]), PrintSeq(todo[1..]), tail);
      SpellsChar(chars, pos, PrintItem(todo[0]), PrintSeq(todo[1..]) + tail, 0);
      SeqFollows(todo[1..], tail);
    }
  }

  lemma ItemKind(it: Item)
    requires Well(it)
    ensures PrintItem(it) != ""
    ensures PrintItem(it)[0] == '(' <==> it.Group?
    ensures PrintItem(it)[0] == '^' <==> it == Zero(LineStart)
    ensures PrintItem(it)[0] == '$' <==> it == Zero(LineEnd)
  {
  }

  lemma SeqAdvance(chars: string, from: nat, pos: nat, todo: seq<Item>, tail: string)
    requires todo != [] && SeqFits(chars, from, todo, tail) && Spells(chars, pos, "", PrintSeq(todo[1..]) + tail)
    ensures SeqFits(chars, pos, todo[1..], tail)
  {
    assert "" + (PrintSeq(todo[1..]) + tail) == PrintSeq(todo[1..]) + tail;
  }

  lemma DoneMore(before: seq<NfaState>, was: seq<NfaState>, now: seq<NfaState>, items: seq<Item>, base: nat, done: seq<NfaState>, todo: seq<Item>)
    requires todo != [] && was == before + done && now == was + Code(todo[0], |was|, |was| + Len(todo[0]))
    requires CodeSeq(items, base, base + LenSeq(items)) == done + CodeSeq(todo, |was|, |was| + LenSeq(todo))
    ensures var done' := done + Code(todo[0], |was|, |was| + Len(todo[0]));
      && now == before + done'
      && CodeSeq(items, base, base + LenSeq(items)) == done' + CodeSeq(todo[1..], |now|, |now| + LenSeq(todo[1..]))
  {
    hide Code, CodeSeq, Len, LenSeq;
    SeqDirect(todo, |was|);
    var code := Code(todo[0], |was|, |was| + Len(todo[0]));
    Assoc(before, done, code);
    Assoc(done, code, CodeSeq(todo[1..], |now|, |now| + LenSeq(todo[1..])));
  }

  lemma Assoc(a: seq<NfaState>, b: seq<NfaState>, c: seq<NfaState>)
    ensures a + b + c == a + (b + c)
  {
  }

  lemma AltEnds(chars: string, pos: nat, todo: seq<Item>, tail: string, n: nat)
    requires SeqFits(chars, pos, todo, tail) && !(pos < |chars| && chars[pos] != '|' && chars[pos] != ')')
    ensures todo == [] && Spells(chars, pos, "", tail) && CodeSeq(todo, n, n + LenSeq(todo)) == []
  {
    if todo != [] {
      SeqFollows(todo, tail);
      SpellsNext(chars, pos, "", PrintSeq(todo) + tail);
    }
  }

  lemma LineDone(chars: string, pos: nat, it: Item, rest: string, before: seq<NfaState>)
    requires pos > 0 && ItemFits(chars, pos - 1, it, rest) && pos <= |chars|
    requires chars[pos - 1] == '^' || chars[pos - 1] == '$'
    requires chars[pos - 1] == PrintItem(it)[0] && PrintItem(it) != ""
    ensures it == Zero(if chars[pos - 1] == '^' then LineStart else LineEnd) && Spells(chars, pos, "", rest)
    ensures before + [Match(Assert(it.anchor), |before| + 1)] == before + Code(it, |before|, |before| + Len(it))
  {
    if it.Zero? {
      SpellsNext(chars, pos - 1, PrintItem(it), rest);
      assert "" + rest == rest;
    }
  }

  // The inside of a group, its closing parenthesis and its quantifier are written here.
  ghost predicate GroupFits(chars: string, pos: nat, alts: seq<Branch>, q: Quant, lazy: bool, rest: string) {
    && AltsFit(chars, pos, alts, ")" + (PrintQuant(q, lazy) + rest)) && Follows(rest)
    && (q.Once? ==> !lazy) && (q.Once? || LenAlts(alts) > 0)
  }

  lemma GroupReads(chars: string, pos: nat, it: Item, rest: string)
    requires ItemFits(chars, pos, it, rest) && pos < |chars| && chars[pos] == '('
    ensures it.Group? && it.alts != [] && WellAlts(it.alts) && (it.quant.Once? || LenAlts(it.alts) > 0)
    ensures it.capturing ==>
      GroupFits(chars, pos + 1, it.alts, it.quant, it.lazy, rest) && pos + 1 < |chars| && chars[pos + 1] != '?'
    ensures !it.capturing ==>
      && GroupFits(chars, pos + 3, it.alts, it.quant, it.lazy, rest)
      && pos + 3 < |chars| && chars[pos + 1] == '?' && chars[pos + 2] == ':'
  {
    hide PrintAlts, PrintQuant, WellAlts, LenAlts;
    SpellsChar(chars, pos, PrintItem(it), rest, 0) by { ItemBegins(it); }
    IsGroup(it);
    var inner := PrintAlts(it.alts);
    var open := if it.capturing then "(" else "(?:";
    var after := PrintQuant(it.quant, it.lazy) + rest;
    GroupText(it, rest);
    assert chars[pos..] == open + (inner + (")" + after));
    assert chars[pos + |open|..] == chars[pos..][|open|..] == inner + (")" + after);
    AltsBegin(it.alts, ")" + after);
    if !it.capturing {
      assert chars[pos..][1] == '?' && chars[pos..][2] == ':';
    }
    assert chars[pos + |open|..] != "";
    assert chars[pos + |open|] == (inner + (")" + after))[0];
  }

  lemma IsGroup(it: Item)
    requires Well(it) && PrintItem(it) != "" && PrintItem(it)[0] == '('
    ensures it.Group?
  {
  }

  // The quantifier that is written after the parenthesis is the one read there.
  lemma GroupQuant(chars: string, pos: nat, q: Quant, lazy: bool, rest: string)
    requires Spells(chars, pos, "", PrintQuant(q, lazy) + rest) && Follows(rest) && (q.Once? ==> !lazy)
    ensures QuantAt(chars, pos).0 == q && Spells(chars, pos + QuantAt(chars, pos).1, "", rest)
  {
    var text := PrintQuant(q, lazy);
    assert "" + (text + rest) == text + rest && "" + rest == rest;
    QuantRead(chars, pos, q, lazy, rest);
    SpellsNext(chars, pos, text, rest);
  }

  // Alternatives never begin with a question mark.
  lemma AltsBegin(alts: seq<Branch>, rest: string)
    requires alts != [] && WellAlts(alts) && rest != "" && rest[0] == ')'
    ensures PrintAlts(alts) + rest != "" && (PrintAlts(alts) + rest)[0] != '?'
  {
    hide PrintItem;
    var items := alts[0].items;
    if items != [] { ItemBegins(items[0]); }
  }

  lemma GroupCode(it: Item, before: seq<NfaState>)
    requires it.Group? && (it.quant.Once? || LenAlts(it.alts) > 0)
    ensures var n := |before|;
      var code := CodeAlts(it.alts, n, n + LenAlts(it.alts));
      (it.quant.Once? || before + code != []) && Quantified(before + code, it.quant) == before + Code(it, n, n + Len(it))
  {
    hide CodeAlts, LenAlts, Quantified, Requantified;
    var n := |before|;
    if !it.quant.Once? {
      QuantifiedCode(before, CodeAlts(it.alts, n, n + LenAlts(it.alts)), it.quant);
    } else {
      QuantifiedOnce(before + CodeAlts(it.alts, n, n + LenAlts(it.alts)));
    }
  }

  lemma QuantifiedOnce(states: seq<NfaState>)
    ensures Quantified(states, Once) == states
  {
  }

  // Rewriting the last of all states is rewriting the last state of the group.
  lemma QuantifiedCode(before: seq<NfaState>, code: seq<NfaState>, q: Quant)
    requires code != [] && !q.Once?
    ensures Quantified(before + code, q) == before + Requantified(code, |before|, q, |before| + |code| + 1)
  {
    var states, last := before + code, |code| - 1;
    assert states[..|states| - 1] == before + code[..last];
    assert states[|states| - 1] == code[last];
  }

  lemma Closing(chars: string, pos: nat, rest: string)
    requires Spells(chars, pos, "", ")" + rest)
    ensures pos < |chars| && chars[pos] == ')' && Spells(chars, pos + 1, "", rest)
  {
    assert "" + (")" + rest) == ")" + rest;
    SpellsChar(chars, pos, ")", rest, 0);
    SpellsNext(chars, pos, ")", rest);
    assert "" + rest == rest;
  }

  lemma AltsScan(chars: string, pos: nat, alts: seq<Branch>, tail: string)
    requires AltsFit(chars, pos, alts, tail)
    ensures HasAlt(chars[pos..], 0) <==> |alts| > 1
    ensures |alts| == 1 ==> SeqFits(chars, pos, alts[0].items, tail)
  {
    hide HasAlt, PrintSeq;
    ScanFinds(alts, tail);
    AltsText(alts, tail);
  }

  lemma OneAlternative(alts: seq<Branch>, n: nat)
    requires |alts| > 0
    ensures |alts| == 1 ==>
      CodeAlts(alts, n, n + LenAlts(alts)) == CodeSeq(alts[0].items, n, n + LenSeq(alts[0].items))
  {
    if |alts| == 1 {
      assert Chain(alts, n, n, n + LenAlts(alts)) == [];
    }
  }

  // What follows an alternative in the pattern.
  ghost function RestAfter(alts: seq<Branch>, n: nat, tail: string): string {
    if n + 1 >= |alts| then tail else "|" + (PrintAlts(alts[n + 1..]) + tail)
  }

  // With n alternatives read, either another one is written here or all are read.
  ghost predicate Reading(chars: string, pos: nat, alts: seq<Branch>, tail: string, n: nat, more: bool) {
    if more then n < |alts| && AltsFit(chars, pos, alts[n..], tail) else n == |alts| && Spells(chars, pos, "", tail)
  }

  lemma ReadFirst(chars: string, pos: nat, alts: seq<Branch>, tail: string, states: seq<NfaState>)
    requires AltsFit(chars, pos, alts, tail)
    ensures Reading(chars, pos, alts, tail, 0, true)
    ensures HoldsAlts(states, [], alts) && states[..|states|] == states
  {
    assert alts != [];
    hide AltsFit;
    assert alts[0..] == alts;
  }

  lemma ReadNext(chars: string, pos: nat, alts: seq<Branch>, tail: string, n: nat)
    requires Reading(chars, pos, alts, tail, n, true)
    ensures n < |alts| && SeqFits(chars, pos, alts[n].items, RestAfter(alts, n, tail))
  {
    hide SeqFits, AltsFit;
    AltNext(chars, pos, alts[n..], tail);
    assert alts[n..][1..] == alts[n + 1..];
  }

  lemma ReadDone(chars: string, from: nat, pos: nat, alts: seq<Branch>, tail: string, n: nat)
    requires Reading(chars, from, alts, tail, n, true)
    requires n < |alts| && Spells(chars, pos, "", RestAfter(alts, n, tail))
    ensures if pos < |chars| && chars[pos] == '|' then Reading(chars, pos + 1, alts, tail, n + 1, true)
            else Reading(chars, pos, alts, tail, n + 1, false)
  {
    hide Spells, PrintAlts;
    assert alts[n..][1..] == alts[n + 1..];
    AltDone(chars, pos, alts[n..], tail);
  }

  lemma ReadAll(chars: string, pos: nat, alts: seq<Branch>, tail: string, n: nat)
    requires Reading(chars, pos, alts, tail, n, false)
    ensures n == |alts| && Spells(chars, pos, "", tail)
  {
  }

  lemma AltNext(chars: string, pos: nat, todo: seq<Branch>, tail: string)
    requires AltsFit(chars, pos, todo, tail)
    ensures |todo| == 1 ==> SeqFits(chars, pos, todo[0].items, tail)
    ensures |todo| > 1 ==> SeqFits(chars, pos, todo[0].items, "|" + (PrintAlts(todo[1..]) + tail))
  {
    hide PrintSeq;
    AltsText(todo, tail);
  }

  // After an alternative comes a bar if and only if it is not the last.
  lemma AltDone(chars: string, pos: nat, todo: seq<Branch>, tail: string)
    requires todo != [] && WellAlts(todo) && Stops(tail)
    requires Spells(chars, pos, "", if |todo| == 1 then tail else "|" + (PrintAlts(todo[1..]) + tail))
    ensures (pos < |chars| && chars[pos] == '|') <==> |todo| > 1
    ensures |todo| > 1 ==> AltsFit(chars, pos + 1, todo[1..], tail)
  {
    hide PrintSeq, PrintAlts, WellSeq;
    var rest := if |todo| == 1 then tail else "|" + (PrintAlts(todo[1..]) + tail);
    SpellsNext(chars, pos, "", rest);
    if |todo| > 1 {
      BarReads(chars, pos, PrintAlts(todo[1..]), tail);
    }
  }

  lemma BarReads(chars: string, pos: nat, a: string, tail: string)
    requires Spells(chars, pos, "", "|" + (a + tail))
    ensures Spells(chars, pos + 1, a, tail)
  {
    assert "" + ("|" + (a + tail)) == "|" + (a + tail);
    SpellsNext(chars, pos, "|", a + tail);
  }

  // ---- assembling the moved alternatives ----

  lemma RangeLength(states: seq<NfaState>, ranges: seq<Range>, alts: seq<Branch>, k: nat)
    requires HoldsAlts(states, ranges, alts) && k < |ranges|
    ensures ranges[k].1 - ranges[k].0 == LenSeq(alts[k].items)
  {
    assert HoldsAlt(states, ranges[k], alts[k].items);
  }

  lemma StartsFirst(alts: seq<Branch>)
    requires alts != []
    ensures StartsOf(alts, 0) == |alts| - 1
  {
  }

  lemma StartsNext(alts: seq<Branch>, k: nat)
    requires k < |alts|
    ensures StartsOf(alts, k + 1) == StartsOf(alts, k) + LenSeq(alts[k].items) + 1
  {
  }

  // The moved alternatives end where the group's code ends.
  lemma ExitPlace(alts: seq<Branch>, base: nat)
    requires alts != []
    ensures base + StartsOf(alts, |alts|) - 1 == base + LenAlts(alts)
  {
    StartsEnd(alts, 0);
    assert alts[0..] == alts;
  }

  // The first starts are where the moved alternatives begin.
  ghost predicate StartsAt(starts: seq<nat>, alts: seq<Branch>) {
    |starts| <= |alts| && forall i | 0 <= i < |starts| :: starts[i] == StartsOf(alts, i)
  }

  lemma StartAt(starts: seq<nat>, alts: seq<Branch>, i: nat)
    requires StartsAt(starts, alts) && i < |starts|
    ensures starts[i] == StartsOf(alts, i)
  {
  }

  // The chain built for the first i alternatives goes on to the whole chain.
  ghost predicate ChainedTo(alts: seq<Branch>, base: nat, exit: nat, chain: seq<NfaState>, i: nat) {
    && i < |alts|
    && chain + Chain(alts[i..], base + i, base + StartsOf(alts, i), exit) == Chain(alts, base, base + |alts| - 1, exit)
  }

  lemma ChainedFirst(alts: seq<Branch>, base: nat, exit: nat)
    requires alts != []
    ensures ChainedTo(alts, base, exit, [], 0)
  {
    hide Chain;
    StartsFirst(alts);
    assert alts[0..] == alts;
  }

  lemma ChainedNext(alts: seq<Branch>, base: nat, exit: nat, chain: seq<NfaState>, i: nat, left: nat, right: nat)
    requires ChainedTo(alts, base, exit, chain, i) && i < |alts| - 1 && exit == base + StartsOf(alts, |alts|) - 1
    requires left == base + StartsOf(alts, i)
    requires right == base + if i + 1 < |alts| - 1 then i + 1 else StartsOf(alts, i + 1)
    ensures ChainedTo(alts, base, exit, chain + [Split(left, right)], i + 1)
  {
    hide Chain, StartsOf;
    ChainStep(alts, i, base, exit, chain, chain + [Split(left, right)]);
  }

  lemma ChainedLast(alts: seq<Branch>, base: nat, exit: nat, chain: seq<NfaState>)
    requires alts != [] && ChainedTo(alts, base, exit, chain, |alts| - 1)
    ensures chain == Chain(alts, base, base + |alts| - 1, exit)
  {
    ChainEnd(alts, base + |alts| - 1, base + StartsOf(alts, |alts| - 1), exit);
    hide Chain, StartsOf;
    assert chain + [] == chain;
  }

  // The bodies moved for the first i alternatives go on to all bodies.
  ghost predicate BodiedTo(alts: seq<Branch>, base: nat, exit: nat, bodies: seq<NfaState>, i: nat) {
    && alts != [] && i <= |alts|
    && bodies + Bodies(alts[i..], base + StartsOf(alts, i), exit) == Bodies(alts, base + |alts| - 1, exit)
  }

  lemma BodiedFirst(alts: seq<Branch>, base: nat, exit: nat)
    requires alts != []
    ensures BodiedTo(alts, base, exit, [], 0)
  {
    hide Bodies;
    StartsFirst(alts);
    assert alts[0..] == alts;
  }

  lemma BodiedNext(alts: seq<Branch>, base: nat, exit: nat, bodies: seq<NfaState>, i: nat, body: seq<NfaState>)
    requires BodiedTo(alts, base, exit, bodies, i) && i < |alts|
    requires body == CodeSeq(alts[i].items, base + StartsOf(alts, i), exit)
    ensures BodiedTo(alts, base, exit, if i < |alts| - 1 then bodies + body + [Split(exit, exit)] else bodies + body, i + 1)
  {
    hide Bodies, StartsOf, CodeSeq;
    assert bodies + body + [] == bodies + body;
    BodiesStep(alts, i, base, exit, bodies, bodies + body + (if i < |alts| - 1 then [Split(exit, exit)] else []));
  }

  lemma BodiedLast(alts: seq<Branch>, base: nat, exit: nat, bodies: seq<NfaState>)
    requires alts != [] && BodiedTo(alts, base, exit, bodies, |alts|)
    ensures bodies == Bodies(alts, base + |alts| - 1, exit)
  {
    hide StartsOf;
    assert alts[|alts|..] == [];
    BodiesNone(base + StartsOf(alts, |alts|), exit);
    assert bodies + [] == bodies;
  }

  lemma ChainStep(alts: seq<Branch>, i: nat, base: nat, exit: nat, was: seq<NfaState>, now: seq<NfaState>)
    requires i < |alts| - 1 && exit == base + StartsOf(alts, |alts|) - 1
    requires var right := if i + 1 < |alts| - 1 then i + 1 else StartsOf(alts, i + 1);
      now == was + [Split(base + StartsOf(alts, i), base + right)]
    ensures was + Chain(alts[i..], base + i, base + StartsOf(alts, i), exit)
         == now + Chain(alts[i + 1..], base + i + 1, base + StartsOf(alts, i + 1), exit)
  {
    var rest := alts[i..];
    assert rest[1..] == alts[i + 1..] && rest[0] == alts[i];
    assert rest[1..][0] == alts[i + 1];
    if i + 1 == |alts| - 1 {
      LastEntry(alts, base, exit);
    }
  }

  // An empty last alternative starts at the exit.
  lemma LastEntry(alts: seq<Branch>, base: nat, exit: nat)
    requires alts != [] && exit == base + StartsOf(alts, |alts|) - 1
    ensures Entry(alts[|alts|-1].items, base + StartsOf(alts, |alts| - 1), exit) == base + StartsOf(alts, |alts| - 1)
  {
    assert StartsOf(alts, |alts|) == StartsOf(alts, |alts| - 1) + LenSeq(alts[|alts|-1].items) + 1;
  }

  lemma ChainEnd(alts: seq<Branch>, chain: nat, body: nat, exit: nat)
    requires alts != []
    ensures Chain(alts[|alts|-1..], chain, body, exit) == []
  {
  }

  lemma BodyMoves(states: seq<NfaState>, ranges: seq<Range>, alts: seq<Branch>, i: nat, m: Shift)
    requires HoldsAlts(states, ranges, alts) && i < |ranges| && m.from == ranges[i].0 && m.end == ranges[i].1
    ensures m.from <= m.end <= |states|
    ensures Lands(m, states[m.from..m.end], CodeSeq(alts[i].items, m.to, m.exit))
  {
    hide CodeSeq, LenSeq, Moved;
    assert HoldsAlt(states, ranges[i], alts[i].items);
    MoveSeq(m, alts[i].items, m.from, m.end);
  }

  lemma BodiesStep(alts: seq<Branch>, i: nat, base: nat, exit: nat, was: seq<NfaState>, now: seq<NfaState>)
    requires i < |alts|
    requires now == was + CodeSeq(alts[i].items, base + StartsOf(alts, i), exit) + (if i < |alts| - 1 then [Split(exit, exit)] else [])
    ensures was + Bodies(alts[i..], base + StartsOf(alts, i), exit) == now + Bodies(alts[i + 1..], base + StartsOf(alts, i + 1), exit)
  {
    hide CodeSeq;
    var rest := alts[i..];
    assert rest[1..] == alts[i + 1..] && rest[0] == alts[i];
    if i == |alts| - 1 {
      assert alts[i + 1..] == [];
    }
  }

  lemma BodiesNone(body: nat, exit: nat)
    ensures Bodies([], body, exit) == []
  {
  }

  lemma AltsJoin(alts: seq<Branch>, base: nat, exit: nat)
    requires alts != []
    ensures CodeAlts(alts, base, exit) == Chain(alts, base, base + |alts| - 1, exit) + Bodies(alts, base + |alts| - 1, exit)
  {
  }
}
