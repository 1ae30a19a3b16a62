// How expressions of the fragment are written, and what the compiler's scan
// for alternatives sees in the text.
module RegexText {
  import opened RegexNfa
  import opened RegexCode

  function PrintMember(m: Member): string {
    if m.Single? then [m.a] else [m.a, '-', m.b]
  }

  function PrintMembers(members: seq<Member>): string {
    if members == [] then "" else PrintMember(members[0]) + PrintMembers(members[1..])
  }

  function PrintShape(shape: Shape): string {
    match shape
    case Plain(c) => [c]
    case Escape(c) => ['\\', c]
    case Dot => "."
    case Class(members, negated) => (if negated then "[^" else "[") + PrintMembers(members) + "]"
  }

  function PrintQuant(q: Quant, lazy: bool): string {
    match q
    case Once => ""
    case Star => if lazy then "*?" else "*"
    case Plus => if lazy then "+?" else "+"
    case Optional => if lazy then "??" else "?"
  }

  function PrintAnchor(a: Anchor): string {
    match a
    case LineStart => "^"
    case LineEnd => "$"
    case WordBoundary => "\\b"
    case NonWordBoundary => "\\B"
  }

  function PrintItem(it: Item): string
    decreases it, 1
  {
    match it
    case Atom(shape, q, lazy) => PrintShape(shape) + PrintQuant(q, lazy)
    case Zero(a) => PrintAnchor(a)
    case Group(alts, capturing, q, lazy) => (if capturing then "(" else "(?:") + PrintAlts(alts) + ")" + PrintQuant(q, lazy)
  }

  function PrintSeq(items: seq<Item>): string
    decreases items, 0
  {
    if items == [] then "" else PrintItem(items[0]) + PrintSeq(items[1..])
  }

  function PrintAlts(alts: seq<Branch>): string
    decreases alts, 0
  {
    if alts == [] then ""
    else PrintSeq(alts[0].items) + (if |alts| == 1 then "" else "|" + PrintAlts(alts[1..]))
  }

  // ---- the scan: is there a bar before the parenthesis that closes this level? ----

  predicate HasAlt(s: string, depth: nat)
    decreases |s|
  {
    if s == "" then false
    else if s[0] == '(' then HasAlt(s[1..], depth + 1)
    else if s[0] == ')' then depth > 0 && HasAlt(s[1..], depth - 1)
    else if s[0] == '|' && depth == 0 then true
    else HasAlt(s[1..], depth)
  }

  predicate NoStructure(s: string) {
    forall i | 0 <= i < |s| :: !Structural(s[i])
  }

  lemma {:induction false} ScanPlain(s: string, rest: string, depth: nat)
    requires NoStructure(s)
    ensures HasAlt(s + rest, depth) == HasAlt(rest, depth)
  {
    if s == "" {
      assert s + rest == rest;
    } else {
      assert !Structural(s[0]);
      assert (s + rest)[1..] == s[1..] + rest;
      ScanPlain(s[1..], rest, depth);
    }
  }

  lemma {:induction false} MembersPlain(members: seq<Member>)
    requires forall i | 0 <= i < |members| :: WellMember(members[i])
    ensures NoStructure(PrintMembers(members))
  {
    if members != [] {
      assert WellMember(members[0]);
      MembersPlain(members[1..]);
    }
  }

  lemma AtomPlain(it: Item)
    requires Well(it) && !it.Group?
    ensures NoStructure(PrintItem(it))
  {
    if it.Atom? && it.shape.Class? {
      MembersPlain(it.shape.members);
    }
  }

  lemma ScanBar(s: string, depth: nat)
    requires s != "" && s[0] == '|'
    ensures HasAlt(s, depth) == (depth == 0 || HasAlt(s[1..], depth))
  {
  }

  lemma GroupText(it: Item, rest: string)
    requires it.Group?
    ensures PrintItem(it) + rest
         == (if it.capturing then "(" else "(?:") + (PrintAlts(it.alts) + (")" + (PrintQuant(it.quant, it.lazy) + rest)))
  {
    hide PrintAlts, PrintQuant;
    var open, quant := if it.capturing then "(" else "(?:", PrintQuant(it.quant, it.lazy);
    assert PrintItem(it) == open + PrintAlts(it.alts) + ")" + quant;
    FourParts(open, PrintAlts(it.alts), ")", quant, rest);
  }

  lemma FourParts(a: string, b: string, c: string, d: string, e: string)
    ensures a + b + c + d + e == a + (b + (c + (d + e)))
  {
  }

  lemma {:induction false} ScanItem(it: Item, rest: string, depth: nat)
    requires Well(it)
    ensures HasAlt(PrintItem(it) + rest, depth) == HasAlt(rest, depth)
    decreases it, 1
  {
    hide HasAlt, PrintItem, PrintAlts, PrintQuant;
    if it.Group? {
      var after := PrintQuant(it.quant, it.lazy) + rest;
      var inner := PrintAlts(it.alts) + (")" + after);
      GroupText(it, rest);
      ScanOpen(it.capturing, inner, depth);
      ScanAlts(it.alts, ")" + after, depth + 1);
      ScanClose(after, depth);
      QuantPlain(it.quant, it.lazy);
      ScanPlain(PrintQuant(it.quant, it.lazy), rest, depth);
    } else {
      AtomPlain(it);
      ScanPlain(PrintItem(it), rest, depth);
    }
  }

  lemma QuantPlain(q: Quant, lazy: bool)
    ensures NoStructure(PrintQuant(q, lazy))
  {
  }

  lemma ScanOpen(capturing: bool, inner: string, depth: nat)
    ensures HasAlt((if capturing then "(" else "(?:") + inner, depth) == HasAlt(inner, depth + 1)
  {
    if capturing {
      assert ("(" + inner)[1..] == inner;
    } else {
      assert ("(?:" + inner)[1..] == "?:" + inner;
      ScanPlain("?:", inner, depth + 1);
    }
  }

  lemma ScanClose(after: string, depth: nat)
    ensures HasAlt(")" + after, depth + 1) == HasAlt(after, depth)
  {
    assert (")" + after)[1..] == after;
  }

  lemma {:induction false} ScanSeq(items: seq<Item>, rest: string, depth: nat)
    requires WellSeq(items)
    ensures HasAlt(PrintSeq(items) + rest, depth) == HasAlt(rest, depth)
    decreases items, 0
  {
    if items == [] {
      assert "" + rest == rest;
    } else {
      var tail := PrintSeq(items[1..]);
      assert PrintSeq(items) + rest == PrintItem(items[0]) + (tail + rest);
      ScanItem(items[0], tail + rest, depth);
      ScanSeq(items[1..], rest, depth);
    }
  }

  lemma AltsText(alts: seq<Branch>, rest: string)
    requires alts != []
    ensures |alts| == 1 ==> PrintAlts(alts) + rest == PrintSeq(alts[0].items) + rest
    ensures |alts| > 1 ==> PrintAlts(alts) + rest == PrintSeq(alts[0].items) + ("|" + (PrintAlts(alts[1..]) + rest))
  {
    hide PrintItem, PrintSeq, PrintShape, PrintQuant, PrintAnchor;
    var first := PrintSeq(alts[0].items);
    if |alts| == 1 {
      assert PrintAlts(alts) == first + "";
      NoTail(first);
    } else {
      var more := PrintAlts(alts[1..]);
      assert PrintAlts(alts) == first + ("|" + more);
      BarAssoc(first, more, rest);
    }
  }

  lemma NoTail(a: string)
    ensures a + "" == a
  {
  }

  lemma BarAssoc(a: string, b: string, c: string)
    ensures (a + ("|" + b)) + c == a + ("|" + (b + c))
  {
  }

  lemma BarTail(tail: string)
    ensures ("|" + tail)[1..] == tail
  {
  }

  // Below the scanned level bars are skipped.
  lemma {:induction false} ScanAlts(alts: seq<Branch>, rest: string, depth: nat)
    requires alts != [] && WellAlts(alts) && depth > 0
    ensures HasAlt(PrintAlts(alts) + rest, depth) == HasAlt(rest, depth)
    decreases alts, 0
  {
    hide HasAlt, PrintSeq, PrintAlts, WellSeq;
    var first := alts[0].items;
    AltsText(alts, rest);
    if |alts| == 1 {
      ScanSeq(first, rest, depth);
    } else {
      var tail := PrintAlts(alts[1..]) + rest;
      ScanSeq(first, "|" + tail, depth);
      ScanBar("|" + tail, depth);
      BarTail(tail);
      ScanAlts(alts[1..], rest, depth);
    }
  }

  // Where an expression may end: at the end of the pattern or before a closing parenthesis.
  predicate Stops(rest: string) {
    rest == "" || rest[0] == ')'
  }

  // At its own level the scan finds a bar exactly when there are two alternatives or more.
  lemma ScanFinds(alts: seq<Branch>, rest: string)
    requires alts != [] && WellAlts(alts) && Stops(rest)
    ensures HasAlt(PrintAlts(alts) + rest, 0) <==> |alts| > 1
  {
    hide HasAlt, PrintSeq, PrintAlts, WellSeq;
    var first := alts[0].items;
    AltsText(alts, rest);
    if |alts| == 1 {
      ScanSeq(first, rest, 0);
      ScanStop(rest);
    } else {
      var tail := PrintAlts(alts[1..]) + rest;
      ScanSeq(first, "|" + tail, 0);
      ScanBar("|" + tail, 0);
    }
  }

  lemma ScanStop(rest: string)
    requires Stops(rest)
    ensures !HasAlt(rest, 0)
  {
  }

  // ---- what follows an item ----

  predicate Quantifying(c: char) {
    c == '*' || c == '+' || c == '?'
  }

  // An item never begins like a quantifier, a bar or a closing parenthesis.
  lemma ItemBegins(it: Item)
    requires Well(it)
    ensures PrintItem(it) != ""
    ensures var c := PrintItem(it)[0]; !Quantifying(c) && c != '|' && c != ')'
  {
  }

  // After an item comes another item, a bar, a closing parenthesis or the end.
  predicate Follows(rest: string) {
    rest == "" || !Quantifying(rest[0])
  }

  predicate EndsAlt(rest: string) {
    rest == "" || rest[0] == '|' || rest[0] == ')'
  }

  lemma SeqFollows(items: seq<Item>, rest: string)
    requires WellSeq(items) && EndsAlt(rest)
    ensures Follows(PrintSeq(items) + rest)
    ensures items != [] ==> PrintSeq(items) + rest != "" && (PrintSeq(items) + rest)[0] != '|' && (PrintSeq(items) + rest)[0] != ')'
  {
    if items != [] {
      ItemBegins(items[0]);
    } else {
      assert "" + rest == rest;
    }
  }

  // The text at a position of the pattern, piece by piece.
  ghost predicate Spells(chars: string, pos: nat, a: string, rest: string) {
    pos <= |chars| && chars[pos..] == a + rest
  }

  lemma SpellsOn(chars: string, pos: nat, a: string, b: string, rest: string)
    requires Spells(chars, pos, a + b, rest)
    ensures Spells(chars, pos, a, b + rest) && Spells(chars, pos + |a|, b, rest)
  {
    assert a + b + rest == a + (b + rest);
    assert chars[pos + |a|..] == chars[pos..][|a|..];
  }

  lemma SpellsChar(chars: string, pos: nat, a: string, rest: string, i: nat)
    requires Spells(chars, pos, a, rest) && i < |a|
    ensures pos + i < |chars| && chars[pos + i] == a[i]
  {
    assert chars[pos..][i] == (a + rest)[i];
  }

  lemma SpellsNext(chars: string, pos: nat, a: string, rest: string)
    requires Spells(chars, pos, a, rest)
    ensures pos + |a| <= |chars| && chars[pos + |a|..] == rest
    ensures rest == "" <==> pos + |a| == |chars|
    ensures rest != "" ==> chars[pos + |a|] == rest[0]
  {
    assert chars[pos + |a|..] == chars[pos..][|a|..];
  }
}
