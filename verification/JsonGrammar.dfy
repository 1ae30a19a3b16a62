// The language the JSON parser accepts, as trees of its text with their values, whether a writer makes such text or not.
module JsonGrammar {
  import opened Wrappers
  import D = Decimal
  import J = Json
  import OrderedMap

  // ---------------------------------------------------------------- strings

  // What stands in a string: a character, a character after a backslash, or one or two numbers in hexadecimal.
  datatype Piece = Plain(c: char) | Short(c: char) | Code(hex: string) | Pair(high: string, low: string)

  function Nibble(c: char): Option<nat> {
    if '0' <= c <= '9' then Some((c - '0') as nat)
    else if 'a' <= c <= 'f' then Some(10 + (c - 'a') as nat)
    else if 'A' <= c <= 'F' then Some(10 + (c - 'A') as nat)
    else None
  }

  // Four hexadecimal digits; a plus sign may stand in place of the first.
  function CodeOf(hex: string): (r: Option<nat>)
    ensures r.Some? ==> r.value < 0x1_0000 && |hex| == 4
  {
    if |hex| != 4 then None
    else
      var a := if hex[0] == '+' then Some(0) else Nibble(hex[0]);
      var b, c, d := Nibble(hex[1]), Nibble(hex[2]), Nibble(hex[3]);
      if a.None? || b.None? || c.None? || d.None? then None
      else Some(a.value * 0x1000 + b.value * 0x100 + c.value * 0x10 + d.value)
  }

  predicate IsHigh(code: nat) {
    0xD800 <= code < 0xDC00
  }

  predicate IsLow(code: nat) {
    0xDC00 <= code < 0xE000
  }

  predicate PieceProper(p: Piece) {
    match p
    case Plain(c) => c != '\"' && c != '\\'
    case Short(c) => c != 'u'
    case Code(hex) => CodeOf(hex).Some? && !IsHigh(CodeOf(hex).value) && !IsLow(CodeOf(hex).value)
    case Pair(high, low) => CodeOf(high).Some? && CodeOf(low).Some? && IsHigh(CodeOf(high).value) && IsLow(CodeOf(low).value)
  }

  function PieceText(p: Piece): string {
    match p
    case Plain(c) => [c]
    case Short(c) => ['\\', c]
    case Code(hex) => "\\u" + hex
    case Pair(high, low) => "\\u" + high + "\\u" + low
  }

  // An unknown character after a backslash stands for both.
  function PieceMeans(p: Piece): string
    requires PieceProper(p)
  {
    match p
    case Plain(c) => [c]
    case Short(c) =>
      if c == 'b' then [8 as char]
      else if c == 't' then [9 as char]
      else if c == 'n' then [10 as char]
      else if c == 'f' then [12 as char]
      else if c == 'r' then [13 as char]
      else if c in "\"\\/" then [c]
      else ['\\', c]
    case Code(hex) => [CodeOf(hex).value as char]
    case Pair(high, low) => [(0x1_0000 + (CodeOf(high).value - 0xD800) * 0x400 + (CodeOf(low).value - 0xDC00)) as char]
  }

  predicate PiecesProper(ps: seq<Piece>) {
    forall p | p in ps :: PieceProper(p)
  }

  function PiecesText(ps: seq<Piece>): string {
    if ps == [] then "" else PieceText(ps[0]) + PiecesText(ps[1..])
  }

  function PiecesMean(ps: seq<Piece>): string
    requires PiecesProper(ps)
  {
    if ps == [] then "" else PieceMeans(ps[0]) + PiecesMean(ps[1..])
  }

  // ---------------------------------------------------------------- numbers

  // The letter of an exponent, its sign if there is one, and its digits.
  datatype Exponent = Exponent(letter: char, sign: string, digits: string)

  datatype Figure = Figure(minus: bool, digits: string, fraction: Option<string>, exponent: Option<Exponent>)

  predicate Spelled(f: Figure) {
    && D.AllDigits(f.digits) && (f.minus || f.digits != "")
    && (f.fraction.Some? ==> D.AllDigits(f.fraction.value))
    && (f.exponent.Some? ==>
          var e := f.exponent.value;
          (e.letter == 'e' || e.letter == 'E') && (e.sign == "" || e.sign == "+" || e.sign == "-") && D.AllDigits(e.digits))
  }

  function FractionText(f: Option<string>): string {
    if f.None? then "" else "." + f.value
  }

  function ExponentText(e: Option<Exponent>): string {
    if e.None? then "" else [e.value.letter] + e.value.sign + e.value.digits
  }

  function FigureText(f: Figure): string {
    (if f.minus then "-" else "") + f.digits + FractionText(f.fraction) + ExponentText(f.exponent)
  }

  // Signed where it fits, else unsigned, else a float; what has a fraction or an exponent is a float.
  function FigureMeans(f: Figure): Option<J.Number>
    requires Spelled(f)
  {
    if f.fraction.Some? || f.exponent.Some? then
      if (f.digits != "" || (f.fraction.Some? && f.fraction.value != "")) && (f.exponent.Some? ==> f.exponent.value.digits != "")
      then Some(J.Float(FigureText(f))) else None
    else if f.digits == "" then None
    else
      var n := D.Value(f.digits);
      if f.minus then (if n <= D.I64 then Some(J.Int(0 - n as int)) else None)
      else if n < D.I64 then Some(J.Int(n))
      else if n < D.U64 then Some(J.UInt(n))
      else Some(J.Float(f.digits))
  }

  // ---------------------------------------------------------------- values

  datatype Tree =
    | Word(word: J.Value)
    | Figured(figure: Figure)
    | Quoted(pieces: seq<Piece>)
    | List(blank: string, items: seq<Item>)
    | Record(blank: string, members: seq<Member>)

  // A value between blanks.
  datatype Item = Item(before: string, tree: Tree, after: string)

  datatype Member = Member(before: string, key: seq<Piece>, colon: string, item: Item)

  ghost predicate Proper(t: Tree)
    decreases t, 0
  {
    match t
    case Word(v) => v.Null? || v.Bool?
    case Figured(f) => Spelled(f) && FigureMeans(f).Some?
    case Quoted(ps) => PiecesProper(ps)
    case List(blank, items) => J.AllBlank(blank) && forall i :: 0 <= i < |items| ==> ItemProper(items[i])
    case Record(blank, members) => J.AllBlank(blank) && forall i :: 0 <= i < |members| ==> MemberProper(members[i])
  }

  ghost predicate ItemProper(i: Item)
    decreases i, 1
  {
    J.AllBlank(i.before) && J.AllBlank(i.after) && Proper(i.tree)
  }

  ghost predicate MemberProper(m: Member)
    decreases m, 2
  {
    J.AllBlank(m.before) && J.AllBlank(m.colon) && PiecesProper(m.key) && ItemProper(m.item)
  }

  // The list or record without elements has its blank between the brackets.
  function TreeText(t: Tree): string
    decreases t, 0
  {
    match t
    case Word(v) => if v == J.Bool(true) then "true" else if v == J.Bool(false) then "false" else "null"
    case Figured(f) => FigureText(f)
    case Quoted(ps) => "\"" + PiecesText(ps) + "\""
    case List(blank, items) => "[" + (if items == [] then blank else ItemsText(items)) + "]"
    case Record(blank, members) => "{" + (if members == [] then blank else MembersText(members)) + "}"
  }

  function ItemText(i: Item): string
    decreases i, 1
  {
    i.before + TreeText(i.tree) + i.after
  }

  function ItemsText(items: seq<Item>): string
    requires items != []
    decreases items, 0
  {
    ItemText(items[0]) + if |items| == 1 then "" else "," + ItemsText(items[1..])
  }

  function MemberText(m: Member): string
    decreases m, 2
  {
    m.before + "\"" + PiecesText(m.key) + "\"" + m.colon + ":" + ItemText(m.item)
  }

  function MembersText(members: seq<Member>): string
    requires members != []
    decreases members, 0
  {
    MemberText(members[0]) + if |members| == 1 then "" else "," + MembersText(members[1..])
  }

  ghost function Means(t: Tree): J.Value
    requires Proper(t)
    decreases t, 0
  {
    match t
    case Word(v) => v
    case Figured(f) => J.Num(FigureMeans(f).value)
    case Quoted(ps) => J.Str(PiecesMean(ps))
    case List(_, items) => J.Array(ItemsMean(items))
    case Record(_, members) => J.Object(MembersMean([], members))
  }

  ghost function ItemMeans(i: Item): J.Value
    requires ItemProper(i)
    decreases i, 1
  {
    Means(i.tree)
  }

  ghost function ItemsMean(items: seq<Item>): seq<J.Value>
    requires forall i :: 0 <= i < |items| ==> ItemProper(items[i])
    decreases items, 0
  {
    if items == [] then [] else [ItemMeans(items[0])] + ItemsMean(items[1..])
  }

  // A repeated key keeps its place and takes the later value.
  ghost function MembersMean(done: J.Members, members: seq<Member>): J.Members
    requires forall i :: 0 <= i < |members| ==> MemberProper(members[i])
    decreases members, 0
  {
    if members == [] then done
    else MembersMean(OrderedMap.Put(done, KeyMeans(members[0]), MemberMeans(members[0])), members[1..])
  }

  ghost function KeyMeans(m: Member): string
    requires MemberProper(m)
  {
    PiecesMean(m.key)
  }

  ghost function MemberMeans(m: Member): J.Value
    requires MemberProper(m)
    decreases m, 2
  {
    ItemMeans(m.item)
  }

  // How deep the elements of a value are nested.
  function Height(t: Tree): nat
    decreases t, 0
  {
    match t
    case List(_, items) => ItemsHeight(items)
    case Record(_, members) => MembersHeight(members)
    case _ => 0
  }

  function ItemHeight(i: Item): nat
    decreases i, 1
  {
    Height(i.tree)
  }

  function ItemsHeight(items: seq<Item>): nat
    decreases items, 0
  {
    if items == [] then 0 else J.Larger(1 + ItemHeight(items[0]), ItemsHeight(items[1..]))
  }

  function MemberHeight(m: Member): nat
    decreases m, 2
  {
    ItemHeight(m.item)
  }

  function MembersHeight(members: seq<Member>): nat
    decreases members, 0
  {
    if members == [] then 0 else J.Larger(1 + MemberHeight(members[0]), MembersHeight(members[1..]))
  }

  // ---------------------------------------------------------------- strings are read

  lemma UnitMeans(hex: string)
    requires |hex| == 4
    ensures J.Unit(hex) == CodeOf(hex)
  {
    var s := if hex[0] == '+' then hex[1..] else hex;
    NibbleMeans(hex[0]);
    NibbleMeans(hex[1]);
    NibbleMeans(hex[2]);
    NibbleMeans(hex[3]);
    hide J.HexValue, Nibble;
    HexPrefixes(s);
  }

  lemma NibbleMeans(c: char)
    ensures J.HexValue(c) == Nibble(c)
    ensures Nibble(c).Some? ==> Nibble(c).value < 16
  {
  }

  // The digits one after the other.
  lemma HexPrefixes(s: string)
    requires |s| == 3 || |s| == 4
    ensures J.HexNumber(s) ==
      match J.HexNumber(s[..|s| - 1])
      case None => None
      case Some(n) => (match J.HexValue(s[|s| - 1]) case None => None case Some(d) => Some(n * 16 + d))
    ensures J.HexNumber(s[..3]) ==
      match J.HexNumber(s[..2])
      case None => None
      case Some(n) => (match J.HexValue(s[2]) case None => None case Some(d) => Some(n * 16 + d))
    ensures J.HexNumber(s[..2]) ==
      match J.HexNumber(s[..1])
      case None => None
      case Some(n) => (match J.HexValue(s[1]) case None => None case Some(d) => Some(n * 16 + d))
    ensures J.HexNumber(s[..1]) == (match J.HexValue(s[0]) case None => None case Some(d) => Some(d))
    ensures |s| == 3 ==> s[..3] == s
    ensures s[..|s| - 1] == if |s| == 3 then s[..2] else s[..3]
  {
    hide J.HexValue;
    assert s[..3][..2] == s[..2] && s[..2][..1] == s[..1] && s[..1][..0] == "";
    assert |s| == 3 ==> s[..3] == s;
  }

  lemma PieceRead(p: Piece, rest: string, read: string)
    requires PieceProper(p)
    ensures J.ParseString(PieceText(p) + rest, read) == J.ParseString(rest, read + PieceMeans(p))
  {
    hide J.ParseUnit, CodeOf;
    var s := PieceText(p) + rest;
    match p
    case Plain(c) => assert s[1..] == rest;
    case Short(c) =>
      assert s[1..][1..] == rest;
      assert J.ParseEscape(s[1..]) == Ok((PieceMeans(p), rest));
    case Code(hex) =>
      CodeRead(hex, rest);
      assert s[1..][1..] == hex + rest;
      assert J.ParseEscape(s[1..]) == Ok((PieceMeans(p), rest));
    case Pair(high, low) =>
      PairRead(high, low, rest);
      assert s[1..][1..] == high + ("\\u" + (low + rest));
      assert J.ParseEscape(s[1..]) == Ok((PieceMeans(p), rest));
  }

  lemma CodeRead(hex: string, rest: string)
    requires PieceProper(Code(hex))
    ensures J.ParseUnit(hex + rest) == Ok((CodeOf(hex).value as char, rest))
  {
    hide J.Unit, CodeOf;
    UnitMeans(hex);
    var s := hex + rest;
    assert s[..4] == hex && s[4..] == rest;
  }

  lemma PairRead(high: string, low: string, rest: string)
    requires PieceProper(Pair(high, low))
    ensures J.ParseUnit(high + ("\\u" + (low + rest)))
         == Ok(((0x1_0000 + (CodeOf(high).value - 0xD800) * 0x400 + (CodeOf(low).value - 0xDC00)) as char, rest))
  {
    hide J.Unit, CodeOf;
    UnitMeans(high);
    UnitMeans(low);
    var s := high + ("\\u" + (low + rest));
    assert s[..4] == high && s[4] == '\\' && s[5] == 'u' && s[6..10] == low && s[10..] == rest;
  }

  // Any string of the grammar stands for what its pieces mean.
  lemma {:induction false} StringMeans(ps: seq<Piece>, rest: string, read: string)
    requires PiecesProper(ps)
    ensures J.ParseString(PiecesText(ps) + ("\"" + rest), read) == Ok((read + PiecesMean(ps), rest))
  {
    var tail := "\"" + rest;
    if ps == [] {
      assert PiecesText(ps) + tail == tail && tail[1..] == rest && read + "" == read;
    } else {
      assert ps[0] in ps;
      assert PiecesText(ps) + tail == PieceText(ps[0]) + (PiecesText(ps[1..]) + tail);
      PieceRead(ps[0], PiecesText(ps[1..]) + tail, read);
      StringMeans(ps[1..], rest, read + PieceMeans(ps[0]));
      assert read + PieceMeans(ps[0]) + PiecesMean(ps[1..]) == read + (PieceMeans(ps[0]) + PiecesMean(ps[1..]));
    }
  }

  // Whatever string is read is one of the grammar.
  lemma {:induction false} StringAccepted(s: string, read: string) returns (ps: seq<Piece>)
    requires J.ParseString(s, read).Ok?
    ensures PiecesProper(ps)
    ensures var (text, rest) := J.ParseString(s, read).value;
      s == PiecesText(ps) + ("\"" + rest) && text == read + PiecesMean(ps)
    decreases |s|
  {
    hide J.ParseString, PieceText, PieceMeans, PieceProper;
    StringStarts(s, read);
    if s[0] == '\"' {
      ps := [];
      assert s == "" + ("\"" + s[1..]) && read + "" == read;
    } else {
      var p, rest := PieceAccepted(s, read);
      var more := StringAccepted(rest, read + PieceMeans(p));
      ps := [p] + more;
      var tail := "\"" + J.ParseString(s, read).value.1;
      assert ps[1..] == more;
      assert PieceText(p) + (PiecesText(more) + tail) == PieceText(p) + PiecesText(more) + tail;
      assert read + PieceMeans(p) + PiecesMean(more) == read + (PieceMeans(p) + PiecesMean(more));
    }
  }

  lemma StringStarts(s: string, read: string)
    requires J.ParseString(s, read).Ok?
    ensures s != "" && (s[0] == '\"' ==> J.ParseString(s, read) == Ok((read, s[1..])))
  {
  }

  // The first piece of a string.
  lemma PieceAccepted(s: string, read: string) returns (p: Piece, rest: string)
    requires J.ParseString(s, read).Ok? && s[0] != '\"'
    ensures PieceProper(p) && s == PieceText(p) + rest && J.ParseString(s, read) == J.ParseString(rest, read + PieceMeans(p))
    ensures |rest| < |s|
  {
    if s[0] != '\\' {
      p, rest := Plain(s[0]), s[1..];
    } else if s[1] != 'u' {
      p, rest := Short(s[1]), s[2..];
      assert s[1..][1..] == rest;
      PieceRead(p, rest, read);
      assert s == PieceText(p) + rest;
    } else {
      var t := s[2..];
      assert s[1..][1..] == t && s == "\\u" + t;
      p, rest := UnitAccepted(t);
      PieceRead(p, rest, read);
    }
  }

  lemma UnitAccepted(t: string) returns (p: Piece, rest: string)
    requires J.ParseUnit(t).Ok?
    ensures PieceProper(p) && "\\u" + t == PieceText(p) + rest && |rest| < |t|
  {
    hide J.Unit, CodeOf;
    UnitMeans(t[..4]);
    if IsHigh(CodeOf(t[..4]).value) {
      UnitMeans(t[6..10]);
      p, rest := Pair(t[..4], t[6..10]), t[10..];
      assert t == t[..4] + "\\u" + t[6..10] + rest;
    } else {
      p, rest := Code(t[..4]), t[4..];
      assert t == t[..4] + rest;
    }
  }

  // ---------------------------------------------------------------- numbers are read

  // Nothing that would go on a number.
  predicate Apart(rest: string) {
    rest != "" ==> !D.IsDigit(rest[0]) && rest[0] !in ".eE+-"
  }

  lemma FractionRun(f: Option<string>, rest: string)
    requires f.Some? ==> D.AllDigits(f.value)
    requires rest != "" ==> !D.IsDigit(rest[0]) && rest[0] != '.'
    ensures J.FractionLen(FractionText(f) + rest) == |FractionText(f)|
  {
    hide J.DigitRun;
    if f.Some? {
      assert ("." + f.value + rest)[1..] == f.value + rest;
      J.RunOf(f.value, rest);
    } else {
      assert "" + rest == rest;
    }
  }

  function ExponentHead(e: Option<Exponent>): nat {
    if e.None? then 0 else 1 + |e.value.sign|
  }

  lemma ExponentRun(e: Option<Exponent>, rest: string)
    requires e.Some? ==> Spelled(Figure(true, "", None, e))
    requires Apart(rest)
    ensures var s := ExponentText(e) + rest; J.ExponentSign(s) == ExponentHead(e) && J.ExponentLen(s) == |ExponentText(e)|
  {
    if e.Some? {
      var x := e.value;
      var s := ExponentText(e) + rest;
      assert s == [x.letter] + x.sign + (x.digits + rest);
      SignRun(x, rest);
      assert s[ExponentHead(e)..] == x.digits + rest;
      J.RunOf(x.digits, rest);
      hide J.DigitRun, J.ExponentSign;
    } else {
      assert "" + rest == rest;
    }
  }

  lemma SignRun(x: Exponent, rest: string)
    requires (x.letter == 'e' || x.letter == 'E') && (x.sign == "" || x.sign == "+" || x.sign == "-") && D.AllDigits(x.digits) && Apart(rest)
    ensures J.ExponentSign([x.letter] + x.sign + (x.digits + rest)) == 1 + |x.sign|
  {
    var tail := x.digits + rest;
    var s := [x.letter] + x.sign + tail;
    if x.sign == "" {
      assert tail != "" ==> s[1] == tail[0] && tail[0] == (if x.digits == "" then rest[0] else x.digits[0]);
    } else {
      assert s[1] == x.sign[0];
    }
  }

  // A number of the grammar stands for what it means, and one without a meaning is refused.
  lemma FigureRead(f: Figure, rest: string)
    requires Spelled(f) && Apart(rest)
    ensures var s := FigureText(f) + rest;
      && s != "" && (s[0] == '-' || D.IsDigit(s[0]))
      && (match FigureMeans(f)
          case None => J.ParseNumber(s).Err?
          case Some(n) => J.ParseNumber(s) == Ok((n, rest)))
  {
    hide J.DigitRun, J.FractionLen, J.ExponentLen, J.ExponentSign, FractionText, ExponentText, J.ParseNumber, J.NumberOf, FigureMeans, Apart;
    var s := FigureText(f) + rest;
    FigureParts(f, rest);
    FigureNumber(f);
    NumberFrom(s, if f.minus then 1 else 0, |f.digits|, |FractionText(f.fraction)|, |ExponentText(f.exponent)|);
    assert s[..|FigureText(f)|] == FigureText(f) && s[|FigureText(f)|..] == rest;
  }

  // The parts of a number where they stand, each as long as the reader finds it.
  lemma FigureParts(f: Figure, rest: string)
    requires Spelled(f) && Apart(rest)
    ensures var s := FigureText(f) + rest;
      var a := if f.minus then 1 else 0;
      var b := a + |f.digits|;
      var c := b + |FractionText(f.fraction)|;
      && s != "" && (s[0] == '-' || D.IsDigit(s[0])) && a == J.SignLen(s) && b <= c <= |s|
      && J.DigitRun(s[a..]) == |f.digits| && J.FractionLen(s[b..]) == |FractionText(f.fraction)|
      && J.ExponentLen(s[c..]) == |ExponentText(f.exponent)| && J.ExponentSign(s[c..]) == ExponentHead(f.exponent)
      && c + |ExponentText(f.exponent)| == |FigureText(f)|
  {
    hide J.DigitRun, J.FractionLen, J.ExponentLen, J.ExponentSign, FractionText, ExponentText, Apart;
    var sign := if f.minus then "-" else "";
    var x := ExponentText(f.exponent) + rest;
    var y := FractionText(f.fraction) + x;
    var z := f.digits + y;
    var s := FigureText(f) + rest;
    assert s == sign + z;
    TextStarts(f, rest);
    ApartMeans(rest);
    ExponentRun(f.exponent, rest);
    FractionRun(f.fraction, x);
    J.RunOf(f.digits, y);
    var a := J.SignLen(s);
    Parts(sign, f.digits, FractionText(f.fraction), x);
  }

  lemma ApartMeans(rest: string)
    requires Apart(rest)
    ensures rest == "" || !D.IsDigit(rest[0])
  {
  }

  lemma Parts(a: string, b: string, c: string, d: string)
    ensures var s := a + (b + (c + d)); s[|a|..] == b + (c + d) && s[|a| + |b|..] == c + d && s[|a| + |b| + |c|..] == d
  {
  }

  lemma NumberFrom(s: string, a: nat, digits: nat, fraction: nat, exponent: nat)
    requires s != "" && (s[0] == '-' || D.IsDigit(s[0]))
    requires a == J.SignLen(s) && a + digits + fraction + exponent <= |s|
    requires digits == J.DigitRun(s[a..]) && fraction == J.FractionLen(s[a + digits..])
    requires exponent == J.ExponentLen(s[a + digits + fraction..])
    ensures var end := a + digits + fraction + exponent;
      J.ParseNumber(s) ==
        match J.NumberOf(s[..end], digits, fraction, J.ExponentSign(s[a + digits + fraction..]), exponent)
        case Err(e) => Err(e)
        case Ok(n) => Ok((n, s[end..]))
    ensures a + digits > 0
  {
    hide J.DigitRun, J.FractionLen, J.ExponentLen, J.ExponentSign, J.NumberOf;
    if a == 0 {
      assert s[a..] == s;
      FirstDigit(s);
    }
    assert J.ParseNumber(s) == J.NumberParts(s, a, digits, fraction, exponent);
  }

  // What can stand at the parts of a number.
  lemma TextStarts(f: Figure, rest: string)
    requires Spelled(f) && Apart(rest)
    ensures var x := ExponentText(f.exponent) + rest;
      var y := FractionText(f.fraction) + x;
      && (x != "" ==> !D.IsDigit(x[0]) && x[0] != '.') && (y != "" ==> !D.IsDigit(y[0]))
  {
  }

  lemma FigureNumber(f: Figure)
    requires Spelled(f)
    ensures var r := J.NumberOf(FigureText(f), |f.digits|, |FractionText(f.fraction)|, ExponentHead(f.exponent), |ExponentText(f.exponent)|);
      match FigureMeans(f)
      case None => r.Err?
      case Some(n) => r == Ok(n)
  {
    if f.fraction.None? && f.exponent.None? {
      var text := FigureText(f);
      if f.minus {
        assert text == "-" + f.digits && text[1..] == f.digits;
      } else {
        assert text == f.digits && D.IsDigit(text[0]);
      }
    }
  }

  // Whatever number is read is one of the grammar.
  lemma FigureAccepted(s: string) returns (f: Figure)
    requires s != "" && (s[0] == '-' || D.IsDigit(s[0])) && J.ParseNumber(s).Ok?
    ensures Spelled(f) && FigureMeans(f) == Some(J.ParseNumber(s).value.0) && s == FigureText(f) + J.ParseNumber(s).value.1
  {
    hide J.DigitRun, J.NumberOf, J.FractionLen, J.ExponentLen, J.ExponentSign, J.ParseNumber, FractionText, ExponentText, FigureMeans, D.AllDigits;
    var a := J.SignLen(s);
    var n := J.DigitRun(s[a..]);
    var y := s[a + n..];
    var m := J.FractionLen(y);
    var x := s[a + n + m..];
    assert y[m..] == x;
    var fraction := FractionAccepted(y);
    var exponent := ExponentAccepted(x);
    f := Figure(a == 1, s[a..][..n], fraction, exponent);
    var k := J.ExponentLen(x);
    NumberFrom(s, a, n, m, k);
    Pieces(s, a, n, m, k);
    FigureNumber(f);
  }

  lemma Pieces(s: string, a: nat, n: nat, m: nat, k: nat)
    requires a + n + m + k <= |s|
    ensures s[..a + n + m + k] == s[..a] + s[a..][..n] + s[a + n..][..m] + s[a + n + m..][..k]
    ensures s == s[..a + n + m + k] + s[a + n + m + k..]
    ensures a == 1 ==> s[..a] == [s[0]]
  {
  }

  lemma FirstDigit(s: string)
    requires s != "" && D.IsDigit(s[0])
    ensures J.DigitRun(s) > 0
  {
  }

  lemma FractionAccepted(s: string) returns (f: Option<string>)
    ensures f.Some? ==> D.AllDigits(f.value)
    ensures FractionText(f) == s[..J.FractionLen(s)]
  {
    var n := J.FractionLen(s);
    if n == 0 {
      f := None;
    } else {
      f := Some(s[1..][..n - 1]);
      assert s[..n] == "." + s[1..][..n - 1];
    }
  }

  lemma ExponentAccepted(s: string) returns (e: Option<Exponent>)
    ensures e.Some? ==> Spelled(Figure(true, "", None, e))
    ensures ExponentText(e) == s[..J.ExponentLen(s)] && ExponentHead(e) == J.ExponentSign(s)
  {
    var n, k := J.ExponentLen(s), J.ExponentSign(s);
    if k == 0 {
      e := None;
    } else {
      e := Some(Exponent(s[0], s[1..k], s[k..][..n - k]));
      assert s[..n] == [s[0]] + s[1..k] + s[k..][..n - k];
    }
  }
}
