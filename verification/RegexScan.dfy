// Searching, replacing and splitting with a regex, and how they fit together.
module RegexScan {
  import opened Wrappers
  import opened RegexNfa
  import opened RegexSim

  // The greatest end in [start, pos] of an accepting path from `start`.
  ghost function BestUpTo(nfa: Nfa, text: string, start: nat, pos: nat): Option<nat>
    requires start <= pos
    decreases pos - start
  {
    if Accepts(nfa, text, start, pos) then Some(pos)
    else if pos == start then None
    else BestUpTo(nfa, text, start, pos - 1)
  }

  // The end of the match at `start`, if there is one.
  ghost function EndAt(nfa: Nfa, text: string, start: nat): (r: Option<nat>)
    requires start <= |text|
    ensures r.Some? ==> start <= r.value <= |text|
  {
    BestBounds(nfa, text, start, |text|);
    BestUpTo(nfa, text, start, |text|)
  }

  lemma {:induction false} BestBounds(nfa: Nfa, text: string, start: nat, pos: nat)
    requires start <= pos
    ensures var r := BestUpTo(nfa, text, start, pos);
      && (r.Some? ==> start <= r.value <= pos && Accepts(nfa, text, start, r.value))
      && (forall e: nat | start <= e <= pos && Accepts(nfa, text, start, e) :: r.Some? && e <= r.value)
    decreases pos - start
  {
    hide Accepts;
    if !Accepts(nfa, text, start, pos) && pos > start {
      BestBounds(nfa, text, start, pos - 1);
    }
  }

  lemma LongestIs(nfa: Nfa, text: string, start: nat, r: Option<nat>)
    requires start <= |text|
    ensures Longest(nfa, text, start, r) <==> r == EndAt(nfa, text, start)
  {
    BestBounds(nfa, text, start, |text|);
    forall e: nat | Accepts(nfa, text, start, e) ensures start <= e <= |text| {
      var q: nat :| Reaches(nfa, text, start, q, e) && nfa.states[q].Accept?;
      ReachesForward(nfa, text, start, q, e);
    }
  }

  method MatchEnd(nfa: Nfa, text: string, start: nat) returns (r: Option<nat>)
    requires start <= |text|
    ensures r == EndAt(nfa, text, start)
  {
    r := MatchAt(nfa, text, start);
    LongestIs(nfa, text, start, r);
  }

  // ---- find ----

  method Find(nfa: Nfa, text: string) returns (r: Option<(nat, nat)>)
    ensures r.Some? ==> r.value.0 <= |text| && EndAt(nfa, text, r.value.0) == Some(r.value.1)
    ensures forall s: nat | s <= |text| && EndAt(nfa, text, s).Some? :: r.Some? && r.value.0 <= s
  {
    for start := 0 to |text| + 1
      invariant forall s: nat | s < start :: EndAt(nfa, text, s).None?
    {
      var end := MatchEnd(nfa, text, start);
      if end.Some? {
        return Some((start, end.value));
      }
    }
    return None;
  }

  // ---- find_all ----

  // Where the search goes on after a match at `s` ending at `e`.
  function After(s: nat, e: nat): nat {
    if e > s then e else s + 1
  }

  ghost function AllFrom(nfa: Nfa, text: string, s: nat): seq<(nat, nat)>
    decreases |text| + 1 - s
  {
    if s > |text| then []
    else
      match EndAt(nfa, text, s)
      case Some(e) => [(s, e)] + AllFrom(nfa, text, After(s, e))
      case None => AllFrom(nfa, text, s + 1)
  }

  method FindAll(nfa: Nfa, text: string) returns (r: seq<(nat, nat)>)
    ensures r == AllFrom(nfa, text, 0)
  {
    r := [];
    var start := 0;
    assert [] + AllFrom(nfa, text, 0) == AllFrom(nfa, text, 0);
    while start <= |text|
      invariant r + AllFrom(nfa, text, start) == AllFrom(nfa, text, 0)
      decreases |text| + 1 - start
    {
      var end := MatchEnd(nfa, text, start);
      if end.Some? {
        var next := After(start, end.value);
        assert r + ([(start, end.value)] + AllFrom(nfa, text, next)) == r + [(start, end.value)] + AllFrom(nfa, text, next);
        r := r + [(start, end.value)];
        start := next;
      } else {
        start := start + 1;
      }
    }
    assert r + [] == r;
  }

  // Matches lie in the text, in order, without overlap, and each is the longest at its start.
  ghost predicate Ordered(nfa: Nfa, text: string, ms: seq<(nat, nat)>, from: nat) {
    && (forall k | 0 <= k < |ms| ::
          from <= ms[k].0 <= ms[k].1 <= |text| && EndAt(nfa, text, ms[k].0) == Some(ms[k].1))
    && (forall k | 0 <= k < |ms| - 1 :: ms[k].1 <= ms[k + 1].0 && ms[k].0 < ms[k + 1].0)
  }

  lemma {:induction false} AllOrdered(nfa: Nfa, text: string, s: nat)
    ensures Ordered(nfa, text, AllFrom(nfa, text, s), s)
    decreases |text| + 1 - s
  {
    hide EndAt;
    if s <= |text| {
      var e := EndAt(nfa, text, s);
      if e.Some? {
        var next := After(s, e.value);
        var rest := AllFrom(nfa, text, next);
        AllOrdered(nfa, text, next);
        var all := [(s, e.value)] + rest;
        forall k | 0 <= k < |all| - 1 ensures all[k].1 <= all[k + 1].0 && all[k].0 < all[k + 1].0 {
          if k > 0 { assert all[k] == rest[k - 1] && all[k + 1] == rest[k]; }
        }
        forall k | 0 <= k < |all|
          ensures s <= all[k].0 <= all[k].1 <= |text| && EndAt(nfa, text, all[k].0) == Some(all[k].1)
        {
          if k > 0 { assert all[k] == rest[k - 1]; }
        }
      } else {
        AllOrdered(nfa, text, s + 1);
      }
    }
  }

  // No start is overlooked: one that is not reported either does not match or lies inside a reported match.
  lemma {:induction false} AllComplete(nfa: Nfa, text: string, s: nat, p: nat)
    requires s <= p <= |text| && EndAt(nfa, text, p).Some?
    ensures exists m :: m in AllFrom(nfa, text, s) && (m.0 == p || m.0 < p < m.1)
    decreases |text| + 1 - s
  {
    hide EndAt;
    var e := EndAt(nfa, text, s);
    if e.Some? {
      var all := AllFrom(nfa, text, s);
      assert (s, e.value) in all;
      if p != s && p >= After(s, e.value) {
        AllComplete(nfa, text, After(s, e.value), p);
        var m :| m in AllFrom(nfa, text, After(s, e.value)) && (m.0 == p || m.0 < p < m.1);
        assert m in all;
      }
    } else {
      AllComplete(nfa, text, s + 1, p);
    }
  }

  // ---- replace ----

  // The character at `p` as a string, nothing at the end of the text.
  function CharAt(text: string, p: nat): string {
    if p < |text| then [text[p]] else ""
  }

  ghost function ReplacedFrom(nfa: Nfa, text: string, with_: string, p: nat): string
    decreases |text| + 1 - p
  {
    if p > |text| then ""
    else
      match EndAt(nfa, text, p)
      case Some(e) => with_ + (if e > p then ReplacedFrom(nfa, text, with_, e) else CharAt(text, p) + ReplacedFrom(nfa, text, with_, p + 1))
      case None => CharAt(text, p) + ReplacedFrom(nfa, text, with_, p + 1)
  }

  method Replace(nfa: Nfa, text: string, replacement: string) returns (r: string)
    ensures r == ReplacedFrom(nfa, text, replacement, 0)
  {
    hide ReplacedFrom, EndAt, CharAt;
    r := "";
    var pos := 0;
    assert "" + ReplacedFrom(nfa, text, replacement, 0) == ReplacedFrom(nfa, text, replacement, 0);
    while pos <= |text|
      invariant r + ReplacedFrom(nfa, text, replacement, pos) == ReplacedFrom(nfa, text, replacement, 0)
      decreases |text| + 1 - pos
    {
      ReplacedStep(nfa, text, replacement, pos);
      var end := MatchEnd(nfa, text, pos);
      ghost var was := r;
      if end.Some? {
        r := r + replacement;
        if end.value > pos {
          Assoc(was, replacement, ReplacedFrom(nfa, text, replacement, end.value));
          pos := end.value;
        } else {
          if pos < |text| {
            r := r + [text[pos]];
          }
          Assoc(was, replacement, CharAt(text, pos) + ReplacedFrom(nfa, text, replacement, pos + 1));
          Assoc(was + replacement, CharAt(text, pos), ReplacedFrom(nfa, text, replacement, pos + 1));
          pos := pos + 1;
        }
      } else {
        if pos < |text| {
          r := r + [text[pos]];
        }
        Assoc(was, CharAt(text, pos), ReplacedFrom(nfa, text, replacement, pos + 1));
        pos := pos + 1;
      }
    }
    ReplacedEnd(nfa, text, replacement, pos);
    assert r + "" == r;
  }

  lemma ReplacedEnd(nfa: Nfa, text: string, with_: string, p: nat)
    requires p > |text|
    ensures ReplacedFrom(nfa, text, with_, p) == ""
  {
  }

  lemma ReplacedStep(nfa: Nfa, text: string, with_: string, p: nat)
    requires p <= |text|
    ensures CharAt(text, p) == if p < |text| then [text[p]] else ""
    ensures ReplacedFrom(nfa, text, with_, p) ==
      match EndAt(nfa, text, p)
      case Some(e) => with_ + (if e > p then ReplacedFrom(nfa, text, with_, e) else CharAt(text, p) + ReplacedFrom(nfa, text, with_, p + 1))
      case None => CharAt(text, p) + ReplacedFrom(nfa, text, with_, p + 1)
  {
  }

  lemma Assoc(a: string, b: string, c: string)
    ensures a + b + c == a + (b + c)
    ensures b == "" ==> a + c == a + (b + c)
  {
  }

  // ---- split ----

  // The stretches of text between matches.
  function Parts(text: string, last: nat, ms: seq<(nat, nat)>): seq<string>
    requires last <= |text| && Chained(text, last, ms)
    decreases |ms|
  {
    if ms == [] then [text[last..]]
    else [text[last..ms[0].0]] + Parts(text, ms[0].1, ms[1..])
  }

  predicate Chained(text: string, last: nat, ms: seq<(nat, nat)>)
    decreases |ms|
  {
    ms != [] ==> last <= ms[0].0 <= ms[0].1 <= |text| && Chained(text, ms[0].1, ms[1..])
  }

  lemma {:induction false} OrderedChained(nfa: Nfa, text: string, ms: seq<(nat, nat)>, from: nat, last: nat)
    requires Ordered(nfa, text, ms, from) && last <= |text| && (ms != [] ==> last <= ms[0].0)
    ensures Chained(text, last, ms)
    decreases |ms|
  {
    if ms != [] {
      OrderedChained(nfa, text, ms[1..], from, ms[0].1);
    }
  }

  lemma AllChained(nfa: Nfa, text: string, s: nat, last: nat)
    requires last <= s && last <= |text|
    ensures Chained(text, last, AllFrom(nfa, text, s))
  {
    AllOrdered(nfa, text, s);
    OrderedChained(nfa, text, AllFrom(nfa, text, s), s, last);
  }

  method Split(nfa: Nfa, text: string) returns (parts: seq<string>)
    ensures Chained(text, 0, AllFrom(nfa, text, 0)) && parts == Parts(text, 0, AllFrom(nfa, text, 0))
  {
    AllChained(nfa, text, 0, 0);
    var matches := FindAll(nfa, text);
    if matches == [] {
      return [text];
    }
    parts := [];
    var last := 0;
    ghost var all := Parts(text, 0, matches);
    assert matches[0..] == matches && [] + all == all;
    for i := 0 to |matches|
      invariant last <= |text| && Chained(text, last, matches[i..]) && parts + Parts(text, last, matches[i..]) == all
    {
      var (start, end) := matches[i];
      assert matches[i..][1..] == matches[i + 1..] && matches[i..][0] == matches[i];
      ghost var was := parts;
      parts := parts + [text[last..start]];
      assert was + ([text[last..start]] + Parts(text, end, matches[i + 1..])) == parts + Parts(text, end, matches[i + 1..]);
      last := end;
    }
    assert matches[|matches|..] == [];
    parts := parts + [text[last..]];
  }

  // ---- how they fit together ----

  function Join(parts: seq<string>, sep: string): string
    requires parts != []
  {
    if |parts| == 1 then parts[0] else parts[0] + sep + Join(parts[1..], sep)
  }

  // Parts and matches, in turn.
  function Interleave(text: string, parts: seq<string>, ms: seq<(nat, nat)>): string
    requires |parts| == |ms| + 1 && forall k | 0 <= k < |ms| :: ms[k].0 <= ms[k].1 <= |text|
  {
    if ms == [] then parts[0]
    else parts[0] + text[ms[0].0..ms[0].1] + Interleave(text, parts[1..], ms[1..])
  }

  lemma {:induction false} ChainedBounds(text: string, last: nat, ms: seq<(nat, nat)>)
    requires Chained(text, last, ms) && last <= |text|
    ensures forall k | 0 <= k < |ms| :: ms[k].0 <= ms[k].1 <= |text|
    ensures |Parts(text, last, ms)| == |ms| + 1
    decreases |ms|
  {
    if ms != [] {
      ChainedBounds(text, ms[0].1, ms[1..]);
      forall k | 0 <= k < |ms| ensures ms[k].0 <= ms[k].1 <= |text| {
        if k > 0 { assert ms[k] == ms[1..][k - 1]; }
      }
    }
  }

  lemma {:induction false} PartsRebuild(text: string, last: nat, ms: seq<(nat, nat)>)
    requires Chained(text, last, ms) && last <= |text|
    ensures (forall k | 0 <= k < |ms| :: ms[k].0 <= ms[k].1 <= |text|) && |Parts(text, last, ms)| == |ms| + 1
    ensures Interleave(text, Parts(text, last, ms), ms) == text[last..]
    decreases |ms|
  {
    ChainedBounds(text, last, ms);
    if ms != [] {
      PartsRebuild(text, ms[0].1, ms[1..]);
      assert Parts(text, last, ms)[1..] == Parts(text, ms[0].1, ms[1..]);
      assert text[last..ms[0].0] + text[ms[0].0..ms[0].1] + text[ms[0].1..] == text[last..];
    }
  }

  // The parts of a split, interleaved with the matches, rebuild the text.
  lemma SplitRebuilds(nfa: Nfa, text: string)
    ensures Chained(text, 0, AllFrom(nfa, text, 0))
    ensures var ms := AllFrom(nfa, text, 0);
      && (forall k | 0 <= k < |ms| :: ms[k].0 <= ms[k].1 <= |text|) && |Parts(text, 0, ms)| == |ms| + 1
      && Interleave(text, Parts(text, 0, ms), ms) == text
  {
    AllChained(nfa, text, 0, 0);
    PartsRebuild(text, 0, AllFrom(nfa, text, 0));
    assert text[0..] == text;
  }

  function Min(a: nat, b: nat): nat {
    if a < b then a else b
  }

  lemma AllStep(nfa: Nfa, text: string, s: nat)
    requires s <= |text|
    ensures AllFrom(nfa, text, s) ==
      var e := EndAt(nfa, text, s);
      if e.Some? then [(s, e.value)] + AllFrom(nfa, text, After(s, e.value)) else AllFrom(nfa, text, s + 1)
  {
  }

  // Nothing matches from `last` up to `s`: joining what is left is copying up to `s` and replacing from there.
  lemma {:induction false} JoinReplaces(nfa: Nfa, text: string, last: nat, s: nat, sep: string)
    requires last <= |text| && last <= s <= |text| + 1
    ensures Chained(text, last, AllFrom(nfa, text, s))
    ensures Join(Parts(text, last, AllFrom(nfa, text, s)), sep) == text[last..Min(s, |text|)] + ReplacedFrom(nfa, text, sep, s)
    decreases |text| + 1 - s
  {
    hide EndAt, Join, Parts, AllFrom, Chained;
    AllChained(nfa, text, s, last);
    if s > |text| {
      JoinNothing(nfa, text, last, s, sep);
    } else {
      AllStep(nfa, text, s);
      var e := EndAt(nfa, text, s);
      if e.Some? {
        var next := After(s, e.value);
        JoinReplaces(nfa, text, e.value, next, sep);
        JoinFirst(text, last, s, e.value, AllFrom(nfa, text, next), sep);
        JoinMatch(nfa, text, last, s, e.value, sep);
      } else {
        JoinReplaces(nfa, text, last, s + 1, sep);
        JoinCopy(text, last, s, ReplacedFrom(nfa, text, sep, s + 1));
      }
    }
  }

  lemma JoinNothing(nfa: Nfa, text: string, last: nat, s: nat, sep: string)
    requires last <= |text| < s
    ensures Chained(text, last, AllFrom(nfa, text, s))
    ensures Join(Parts(text, last, AllFrom(nfa, text, s)), sep) == text[last..Min(s, |text|)] + ReplacedFrom(nfa, text, sep, s)
  {
    assert text[last..|text|] + "" == text[last..];
  }

  lemma JoinMatch(nfa: Nfa, text: string, last: nat, s: nat, e: nat, sep: string)
    requires last <= s <= e <= |text| && EndAt(nfa, text, s) == Some(e)
    ensures var next := After(s, e);
      text[last..s] + sep + (text[e..Min(next, |text|)] + ReplacedFrom(nfa, text, sep, next))
        == text[last..s] + ReplacedFrom(nfa, text, sep, s)
  {
    hide EndAt;
    var next := After(s, e);
    var rest := ReplacedFrom(nfa, text, sep, next);
    if e > s {
      assert text[e..e] + rest == rest;
    } else {
      assert text[s..Min(s + 1, |text|)] == CharAt(text, s);
    }
    Assoc(text[last..s], sep, text[e..Min(next, |text|)] + rest);
  }

  lemma JoinCopy(text: string, last: nat, s: nat, rest: string)
    requires last <= s <= |text|
    ensures text[last..Min(s + 1, |text|)] + rest == text[last..s] + (CharAt(text, s) + rest)
  {
    assert text[last..Min(s + 1, |text|)] == text[last..s] + CharAt(text, s);
    Assoc(text[last..s], CharAt(text, s), rest);
  }

  lemma JoinFirst(text: string, last: nat, s: nat, e: nat, ms: seq<(nat, nat)>, sep: string)
    requires last <= s <= e <= |text| && Chained(text, e, ms)
    ensures Chained(text, last, [(s, e)] + ms)
    ensures Join(Parts(text, last, [(s, e)] + ms), sep) == text[last..s] + sep + Join(Parts(text, e, ms), sep)
  {
    var all := [(s, e)] + ms;
    assert all[1..] == ms;
    assert Parts(text, last, all)[1..] == Parts(text, e, ms);
  }

  // Splitting and joining with a string is replacing by it.
  lemma SplitJoinIsReplace(nfa: Nfa, text: string, sep: string)
    ensures Chained(text, 0, AllFrom(nfa, text, 0))
    ensures Join(Parts(text, 0, AllFrom(nfa, text, 0)), sep) == ReplacedFrom(nfa, text, sep, 0)
  {
    JoinReplaces(nfa, text, 0, 0, sep);
    assert text[0..0] + ReplacedFrom(nfa, text, sep, 0) == ReplacedFrom(nfa, text, sep, 0);
  }
}
