// What the written characters, escapes and anchors of a pattern stand for, said of characters and places alone.
module RegexMeaning {
  import opened Wrappers
  import opened RegexNfa
  import opened RegexCode
  import opened RegexText
  import opened RegexExact
  import opened RegexTheorem

  predicate Digit(c: char) {
    '0' <= c <= '9'
  }

  predicate WordChar(c: char) {
    'a' <= c <= 'z' || 'A' <= c <= 'Z' || Digit(c) || c == '_'
  }

  predicate Blank(c: char) {
    c == ' ' || c == '\t' || c == '\n' || c == '\r'
  }

  // The control character of an escape that stands for one; `None` for every other letter.
  function Control(e: char): Option<char> {
    if e == 'n' then Some('\n') else if e == 't' then Some('\t') else if e == 'r' then Some('\r') else if e == '0' then Some('\0') else None
  }

  // Each written form, by the characters it matches.
  predicate Denotes(shape: Shape, c: char) {
    match shape
    case Plain(p) => c == p
    case Dot => c != '\n'
    case Class(members, negated) =>
      (exists m | m in members :: if m.Single? then c == m.a else m.a <= c && c <= m.b) <==> !negated
    case Escape(e) =>
      if e == 'd' then Digit(c) else if e == 'D' then !Digit(c)
      else if e == 'w' then WordChar(c) else if e == 'W' then !WordChar(c)
      else if e == 's' then Blank(c) else if e == 'S' then !Blank(c)
      else if Control(e).Some? then Some(c) == Control(e)
      else c == e
  }

  lemma OneRange(r: (char, char), c: char)
    ensures InRanges([r], c) <==> r.0 <= c <= r.1
  {
    if r.0 <= c <= r.1 { assert [r][0] == r; }
  }

  lemma FourRanges(rs: seq<(char, char)>, c: char)
    requires |rs| == 4
    ensures InRanges(rs, c) <==> rs[0].0 <= c <= rs[0].1 || rs[1].0 <= c <= rs[1].1 || rs[2].0 <= c <= rs[2].1 || rs[3].0 <= c <= rs[3].1
  {
  }

  lemma MembersMean(members: seq<Member>, c: char)
    ensures InRanges(RangesOf(members), c) <==> exists m | m in members :: if m.Single? then c == m.a else m.a <= c && c <= m.b
  {
    var rs := RangesOf(members);
    if InRanges(rs, c) {
      var i :| 0 <= i < |rs| && rs[i].0 <= c <= rs[i].1;
      assert members[i] in members;
    }
    if m :| m in members && if m.Single? then c == m.a else m.a <= c && c <= m.b {
      var i :| 0 <= i < |members| && members[i] == m;
      assert rs[i].0 <= c <= rs[i].1;
    }
  }

  // The automaton's node for a written form reads exactly the characters the form stands for.
  lemma ShapeMeans(shape: Shape, c: char)
    requires WellShape(shape)
    ensures MatchNode(NodeOf(shape), c) <==> Denotes(shape, c)
  {
    hide InRanges, RangesOf;
    match shape
    case Plain(_) =>
    case Dot =>
    case Class(members, _) => MembersMean(members, c);
    case Escape(e) => EscapeMeans(e, c);
  }

  lemma EscapeMeans(e: char, c: char)
    requires e != 'b' && e != 'B'
    ensures MatchNode(EscapeNode(e), c) <==> Denotes(Escape(e), c)
  {
    hide InRanges;
    if e == 'd' || e == 'D' {
      OneRange(('0', '9'), c);
    } else if e == 'w' || e == 'W' {
      FourRanges([('a', 'z'), ('A', 'Z'), ('0', '9'), ('_', '_')], c);
    } else if e == 's' || e == 'S' {
      FourRanges([(' ', ' '), ('\t', '\t'), ('\n', '\n'), ('\r', '\r')], c);
    }
  }

  // ---- anchors, as they are written ----

  // Splitting the text at `pos`: ^ has nothing before it, $ nothing behind it, \b a word on exactly one side.
  lemma AnchorMeans(word: char -> bool, a: Anchor, before: string, behind: string)
    ensures var here := Holds(word, a, before + behind, |before|);
      var left, right := before != "" && word(before[|before| - 1]), behind != "" && word(behind[0]);
      match PrintAnchor(a)
      case "^" => here <==> before == ""
      case "$" => here <==> behind == ""
      case "\\b" => here <==> left != right
      case _ => PrintAnchor(a) == "\\B" && (here <==> left == right)
  {
  }

  // ---- runs of characters ----

  predicate Run(shape: Shape, text: string, i: nat, j: nat) {
    i <= j <= |text| && forall k | i <= k < j :: Denotes(shape, text[k])
  }

  // What x+ finds: from a character of x the whole run up to the first that is none, and nothing anywhere else.
  lemma PlusFinds(word: char -> bool, text: string, shape: Shape, lazy: bool, start: nat, r: Option<nat>)
    requires WellShape(shape) && start <= |text|
    requires LongestMatch(word, text, [Branch([Atom(shape, Plus, lazy)])], start, r)
    ensures r.Some? <==> start < |text| && Denotes(shape, text[start])
    ensures r.Some? ==> start < r.value && Run(shape, text, start, r.value) && (r.value < |text| ==> !Denotes(shape, text[r.value]))
  {
    hide MatchesSeq, Denotes, NodeOf, MatchNode;
    var alts, it := [Branch([Atom(shape, Plus, lazy)])], Atom(shape, Plus, lazy);
    forall e: nat ensures MatchesAlts(word, text, alts, start, e) <==> start < e && Run(shape, text, start, e) {
      AltsMean(word, text, alts, start, e);
      ItemMeans(word, text, it, start, e);
      forall k | 0 <= k < |text| ensures MatchNode(NodeOf(shape), text[k]) <==> Denotes(shape, text[k]) {
        ShapeMeans(shape, text[k]);
      }
    }
    if start < |text| && Denotes(shape, text[start]) {
      assert MatchesAlts(word, text, alts, start, start + 1);
      if r.value < |text| {
        assert !MatchesAlts(word, text, alts, start, r.value + 1);
        assert !Run(shape, text, start, r.value + 1);
      }
    }
  }

  lemma ItemMeans(word: char -> bool, text: string, it: Item, i: nat, j: nat)
    requires !it.Group?
    ensures MatchesSeq(word, text, [it], i, j) <==> MatchesLeaf(word, text, it, i, j)
  {
    hide MatchesLeaf;
    assert [it][1..] == [];
    if MatchesSeq(word, text, [it], i, j) {
      var m := SeqSplit(word, text, [it], i, j);
      LeafMatches(word, text, it, i, m);
    }
    if MatchesLeaf(word, text, it, i, j) {
      LeafMatches(word, text, it, i, j);
      SeqJoined(word, text, [it], i, j, j);
    }
  }

  // The pattern \d+ finds the digits from a place on, all of them and nothing else.
  method Digits(word: char -> bool, text: string, start: nat) returns (r: Option<nat>)
    requires start <= |text|
    ensures r.Some? <==> start < |text| && '0' <= text[start] <= '9'
    ensures r.Some? ==> start < r.value <= |text| && (forall k | start <= k < r.value :: '0' <= text[k] <= '9')
    ensures r.Some? && r.value < |text| ==> !('0' <= text[r.value] <= '9')
  {
    hide MatchesAlts, PrintAlts, LongestMatch, WellAlts, RegularAlts;
    ghost var shape := Escape('d');
    ghost var alts := [Branch([Atom(shape, Plus, false)])];
    DigitsWritten(alts);
    var ok;
    ok, r := MatchPattern("\\d+", word, text, start, alts);
    PlusFinds(word, text, shape, false, start, r);
  }

  lemma DigitsWritten(alts: seq<Branch>)
    requires alts == [Branch([Atom(Escape('d'), Plus, false)])]
    ensures PrintAlts(alts) == "\\d+" && WellAlts(alts) && RegularAlts(alts)
  {
    var it := Atom(Escape('d'), Plus, false);
    assert [it][1..] == [] && alts[1..] == [];
    assert PrintItem(it) == "\\d+";
    assert PrintSeq([it]) == "\\d+" + PrintSeq([]);
    assert WellSeq([it]) && RegularSeq([it]);
  }
}
