// The edit distance of src/util.rs, computed with two rows that are swapped.
module Levenshtein {

  function Min(x: nat, y: nat): nat {
    if x <= y then x else y
  }

  function Cost(x: char, y: char): nat {
    if x == y then 0 else 1
  }

  function Front(s: string): string
    requires s != ""
  {
    s[..|s| - 1]
  }

  function Last(s: string): char
    requires s != ""
  {
    s[|s| - 1]
  }

  function Distance(a: string, b: string): nat
    decreases |a| + |b|
  {
    if a == "" then |b|
    else if b == "" then |a|
    else
      Min(Min(Distance(Front(a), b) + 1, Distance(a, Front(b)) + 1),
          Distance(Front(a), Front(b)) + Cost(Last(a), Last(b)))
  }

  // The last column of a step: the distances of three shorter pairs.
  lemma Cell(a: string, b: string, i: nat, j: nat)
    requires i < |a| && j < |b|
    ensures Distance(a[..i + 1], b[..j + 1]) ==
      Min(Min(Distance(a[..i], b[..j + 1]) + 1, Distance(a[..i + 1], b[..j]) + 1), Distance(a[..i], b[..j]) + Cost(a[i], b[j]))
  {
    hide Min, Cost;
    var x, y := a[..i + 1], b[..j + 1];
    assert Front(x) == a[..i] && Front(y) == b[..j] && Last(x) == a[i] && Last(y) == b[j];
  }

  lemma Borders(a: string, b: string)
    ensures forall j :: 0 <= j <= |b| ==> Distance(a[..0], b[..j]) == j
    ensures forall i :: 0 <= i <= |a| ==> Distance(a[..i], b[..0]) == i
  {
  }

  // The first n + 1 cells of a row.
  ghost predicate Row(row: array<nat>, x: string, b: string, n: nat)
    reads row
  {
    && n <= |b| && n < row.Length
    && forall j :: 0 <= j <= n ==> row[j] == Distance(x, b[..j])
  }

  lemma CostMeans(x: char, y: char)
    ensures Cost(x, y) == if x == y then 0 else 1
  {
  }

  // The inner loop: one row from the row before it.
  method FillRow(a: string, b: string, i: nat, prev: array<nat>, curr: array<nat>)
    requires i < |a| && prev != curr && prev.Length == |b| + 1 == curr.Length
    requires Row(prev, a[..i], b, |b|)
    modifies curr
    ensures Row(curr, a[..i + 1], b, |b|)
  {
    hide Distance, Min, Cost;
    Borders(a, b);
    curr[0] := i + 1;
    for j := 0 to |b|
      invariant Row(prev, a[..i], b, |b|)
      invariant Row(curr, a[..i + 1], b, j)
    {
      Cell(a, b, i, j);
      var cost := if a[i] == b[j] then 0 else 1;
      CostMeans(a[i], b[j]);
      curr[j + 1] := Min(Min(prev[j + 1] + 1, curr[j] + 1), prev[j] + cost);
    }
  }

  method EditDistance(a: string, b: string) returns (d: nat)
    ensures d == Distance(a, b)
  {
    if |a| == 0 {
      return |b|;
    }
    if |b| == 0 {
      return |a|;
    }
    var prev := new nat[|b| + 1](i requires i >= 0 => i);
    var curr := new nat[|b| + 1](i => 0);
    hide Distance, Min, Cost;
    Borders(a, b);
    for i := 0 to |a|
      invariant prev != curr && fresh(prev) && fresh(curr)
      invariant prev.Length == |b| + 1 == curr.Length
      invariant Row(prev, a[..i], b, |b|)
    {
      FillRow(a, b, i, prev, curr);
      prev, curr := curr, prev;
    }
    assert a[..|a|] == a && b[..|b|] == b;
    return prev[|b|];
  }

  // ---------------------------------------------------------------- edit scripts

  // One character inserted, removed or replaced between p and s.
  ghost predicate EditAt(a: string, b: string, p: string, u: string, v: string, s: string) {
    && |u| <= 1 && |v| <= 1 && u != v
    && a == p + u + s && b == p + v + s
  }

  ghost predicate Edit(a: string, b: string) {
    exists p, u, v, s :: EditAt(a, b, p, u, v, s)
  }

  // The texts passed through on the way from a to b.
  ghost predicate Script(texts: seq<string>, a: string, b: string) {
    && texts != [] && texts[0] == a && texts[|texts| - 1] == b
    && forall i :: 0 < i < |texts| ==> Edit(texts[i - 1], texts[i])
  }

  // One more character at the end of b costs at most one more edit.
  lemma {:induction false} OneLonger(a: string, b: string, c: char)
    ensures Distance(a, b + [c]) <= Distance(a, b) + 1
    ensures Distance(a + [c], b) <= Distance(a, b) + 1
  {
    assert Front(b + [c]) == b && Front(a + [c]) == a;
  }

  // The distance of two non-empty texts is no more than each of three candidates, and is one of them.
  lemma Candidates(a: string, b: string)
    requires a != "" && b != ""
    ensures Distance(a, b) <= Distance(Front(a), b) + 1
    ensures Distance(a, b) <= Distance(a, Front(b)) + 1
    ensures Distance(a, b) <= Distance(Front(a), Front(b)) + Cost(Last(a), Last(b))
    ensures
      || Distance(a, b) == Distance(Front(a), b) + 1
      || Distance(a, b) == Distance(a, Front(b)) + 1
      || Distance(a, b) == Distance(Front(a), Front(b)) + Cost(Last(a), Last(b))
  {
  }

  lemma EmptyDistance(a: string)
    ensures Distance(a, "") == Distance("", a) == |a|
  {
  }

  // Texts that differ at the end.
  lemma {:induction false} EndsApart(p: string, u: string, v: string, b: string)
    requires |u| <= 1 && |v| <= 1
    ensures Distance(p + u, b) <= Distance(p + v, b) + 1
    decreases |b|
  {
    hide Distance, Min;
    var x, y := p + u, p + v;
    EmptyDistance(x);
    EmptyDistance(y);
    EmptyDistance(b);
    if b != "" {
      assert Front(b) + [Last(b)] == b;
      if u != "" { assert x == p + [u[0]]; OneLonger(p, b, u[0]); } else { assert x == p; }
      if v == "" {
        assert y == p;
      } else {
        assert Front(y) == p;
        Candidates(y, b);
        EndsApart(p, u, v, Front(b));
        OneLonger(x, Front(b), Last(b));
        if u == "" {
          OneLonger(p, Front(b), Last(b));
        } else {
          assert Front(x) == p;
          Candidates(x, b);
        }
      }
    }
  }

  // Texts that differ in one place have distances that differ by at most one.
  lemma {:induction false} OneEditApart(p: string, u: string, v: string, s: string, b: string)
    requires |u| <= 1 && |v| <= 1
    ensures Distance(p + u + s, b) <= Distance(p + v + s, b) + 1
    decreases |s| + |b|
  {
    hide Distance, Min;
    var x, y := p + u + s, p + v + s;
    if s == "" {
      assert x == p + u && y == p + v;
      EndsApart(p, u, v, b);
    } else if b == "" {
      EmptyDistance(x);
      EmptyDistance(y);
    } else {
      assert Front(x) == p + u + Front(s) && Front(y) == p + v + Front(s) && Last(x) == Last(y);
      OneEditApart(p, u, v, Front(s), b);
      OneEditApart(p, u, v, s, Front(b));
      OneEditApart(p, u, v, Front(s), Front(b));
      Candidates(x, b);
      Candidates(y, b);
    }
  }

  // No script is shorter than the distance.
  lemma {:induction false} NoShorterScript(texts: seq<string>, a: string, b: string)
    requires Script(texts, a, b)
    ensures |texts| - 1 >= Distance(a, b)
    decreases |texts|
  {
    if |texts| == 1 {
      SelfDistance(a);
    } else {
      NoShorterScript(texts[1..], texts[1], b);
      assert Edit(texts[0], texts[1]);
      var p, u, v, s :| EditAt(texts[0], texts[1], p, u, v, s);
      OneEditApart(p, u, v, s, b);
    }
  }

  lemma {:induction false} SelfDistance(a: string)
    ensures Distance(a, a) == 0
  {
    if a != "" { SelfDistance(Front(a)); }
  }

  // A script with one more text at its front or at its end.
  lemma Extended(texts: seq<string>, a: string, b: string, c: string)
    requires Script(texts, a, b)
    ensures Edit(c, a) ==> Script([c] + texts, c, b)
    ensures Edit(b, c) ==> Script(texts + [c], a, c)
  {
    hide Edit;
    if Edit(c, a) {
      var longer := [c] + texts;
      forall i | 0 < i < |longer|
        ensures Edit(longer[i - 1], longer[i])
      {
        if i > 1 { assert Edit(texts[i - 2], texts[i - 1]); }
      }
    }
  }

  lemma EditMeans(a: string, b: string, p: string, u: string, v: string, s: string)
    requires EditAt(a, b, p, u, v, s)
    ensures Edit(a, b)
  {
  }

  lemma LastEdit(a: string)
    requires a != ""
    ensures Edit(a, Front(a)) && Edit(Front(a), a)
  {
    assert EditAt(a, Front(a), Front(a), [Last(a)], "", "");
    assert EditAt(Front(a), a, Front(a), "", [Last(a)], "");
  }

  // Some script is as short as the distance.
  lemma {:induction false} ShortestScript(a: string, b: string) returns (texts: seq<string>)
    ensures Script(texts, a, b) && |texts| - 1 == Distance(a, b)
    decreases |a| + |b|
  {
    hide Distance, Min, Edit;
    EmptyDistance(a);
    EmptyDistance(b);
    if a != "" && b != "" { Candidates(a, b); }
    if a == "" && b == "" {
      texts := [""];
    } else if b == "" || (a != "" && Distance(a, b) == Distance(Front(a), b) + 1) {
      texts := ShortestScript(Front(a), b);
      LastEdit(a);
      Extended(texts, Front(a), b, a);
      EmptyDistance(Front(a));
      texts := [a] + texts;
    } else if a == "" || Distance(a, b) == Distance(a, Front(b)) + 1 {
      texts := ShortestScript(a, Front(b));
      LastEdit(b);
      Extended(texts, a, Front(b), b);
      EmptyDistance(Front(b));
      texts := texts + [b];
    } else {
      var inner := ShortestScript(Front(a), Front(b));
      texts := Appended(inner, Front(a), Front(b), Last(a));
      var near := Front(b) + [Last(a)];
      assert Front(a) + [Last(a)] == a && Front(b) + [Last(b)] == b;
      if Last(a) != Last(b) {
        EditMeans(near, b, Front(b), [Last(a)], [Last(b)], "");
        Extended(texts, a, near, b);
        texts := texts + [b];
      }
    }
  }

  // A script still works when every text ends in one more character.
  lemma Appended(inner: seq<string>, a: string, b: string, c: char) returns (texts: seq<string>)
    requires Script(inner, a, b)
    ensures Script(texts, a + [c], b + [c]) && |texts| == |inner|
  {
    texts := seq(|inner|, i requires 0 <= i < |inner| => inner[i] + [c]);
    forall i | 0 < i < |texts|
      ensures Edit(texts[i - 1], texts[i])
    {
      assert Edit(inner[i - 1], inner[i]);
      var p, u, v, s :| EditAt(inner[i - 1], inner[i], p, u, v, s);
      assert p + u + (s + [c]) == p + u + s + [c] && p + v + (s + [c]) == p + v + s + [c];
      assert EditAt(texts[i - 1], texts[i], p, u, v, s + [c]);
    }
  }

  // ---------------------------------------------------------------- a metric

  lemma {:induction false} Symmetric(a: string, b: string)
    ensures Distance(a, b) == Distance(b, a)
    decreases |a| + |b|
  {
    if a != "" && b != "" {
      Symmetric(Front(a), b);
      Symmetric(a, Front(b));
      Symmetric(Front(a), Front(b));
    }
  }

  lemma Triangle(a: string, b: string, c: string)
    ensures Distance(a, c) <= Distance(a, b) + Distance(b, c)
  {
    var first := ShortestScript(a, b);
    var second := ShortestScript(b, c);
    var both := first + second[1..];
    forall i | 0 < i < |both|
      ensures Edit(both[i - 1], both[i])
    {
      if i == |first| {
        assert Edit(second[0], second[1]);
      } else if i < |first| {
        assert Edit(first[i - 1], first[i]);
      } else {
        assert Edit(second[i - |first|], second[i - |first| + 1]);
      }
    }
    NoShorterScript(both, a, c);
  }

  lemma {:induction false} ZeroMeansEqual(a: string, b: string)
    ensures Distance(a, b) == 0 <==> a == b
    decreases |a| + |b|
  {
    if a == b {
      SelfDistance(a);
    } else if a != "" && b != "" {
      ZeroMeansEqual(Front(a), Front(b));
      assert Front(a) + [Last(a)] == a && Front(b) + [Last(b)] == b;
    }
  }
}
