// Parsing what the JSON writer wrote gives an equal value back, exactly up to the depth limit.
module JsonRoundTrip {
  import opened Wrappers
  import opened Decimal
  import opened Json
  import OrderedMap

  // ---------------------------------------------------------------- values that can be written

  // An integer of the machine; floats are outside this property.
  predicate Fits(n: Number) {
    match n
    case Int(k) => -I64 <= k < I64
    case UInt(k) => 0 <= k < U64
    case Float(_) => false
  }

  // Float-free, with distinct keys in every object, as the source's map has by construction.
  ghost predicate Good(v: Value) {
    match v
    case Num(n) => Fits(n)
    case Array(items) => forall i :: 0 <= i < |items| ==> Good(items[i])
    case Object(members) =>
      && OrderedMap.Distinct(members)
      && forall i :: 0 <= i < |members| ==> Good(members[i].1)
    case _ => true
  }

  // How deep the non-empty arrays and objects of a value are nested.
  function Height(v: Value): nat {
    match v
    case Array(items) => if items == [] then 0 else 1 + ItemsHeight(items)
    case Object(members) => if members == [] then 0 else 1 + MembersHeight(members)
    case _ => 0
  }

  function ItemsHeight(items: seq<Value>): nat {
    if items == [] then 0 else Larger(Height(items[0]), ItemsHeight(items[1..]))
  }

  function MemberHeight(m: (string, Value)): nat {
    Height(m.1)
  }

  function MembersHeight(members: Members): nat {
    if members == [] then 0 else Larger(MemberHeight(members[0]), MembersHeight(members[1..]))
  }

  // ---------------------------------------------------------------- the equality of the source

  predicate SameNumber(a: Number, b: Number) {
    match (a, b)
    case (Int(m), Int(n)) => m == n
    case (UInt(m), UInt(n)) => m == n
    case (Int(m), UInt(n)) => m >= 0 && m == n
    case (UInt(m), Int(n)) => n >= 0 && m == n
    case _ => a == b
  }

  predicate Same(v: Value, w: Value)
    decreases v
  {
    match v
    case Num(m) => w.Num? && SameNumber(m, w.num)
    case Array(items) => w.Array? && |items| == |w.items| && forall i :: 0 <= i < |items| ==> Same(items[i], w.items[i])
    case Object(members) =>
      && w.Object? && |members| == |w.members|
      && forall i :: 0 <= i < |members| ==> members[i].0 == w.members[i].0 && Same(members[i].1, w.members[i].1)
    case _ => v == w
  }

  // What is read back: an unsigned number that fits is read as a signed one.
  function Read(v: Value): Value {
    match v
    case Num(UInt(k)) => if k < I64 then Num(Int(k)) else v
    case Array(items) => Array(ReadItems(items))
    case Object(members) => Object(ReadMembers(members))
    case _ => v
  }

  function ReadItems(items: seq<Value>): (r: seq<Value>)
    ensures |r| == |items|
  {
    if items == [] then [] else [Read(items[0])] + ReadItems(items[1..])
  }

  function ReadMember(m: (string, Value)): (string, Value) {
    (m.0, Read(m.1))
  }

  function ReadMembers(members: Members): (r: Members)
    ensures |r| == |members|
  {
    if members == [] then [] else [ReadMember(members[0])] + ReadMembers(members[1..])
  }

  lemma {:induction false} ReadSame(v: Value)
    requires Good(v)
    ensures Same(v, Read(v))
  {
    match v
    case Array(items) =>
      forall i | 0 <= i < |items|
        ensures Same(items[i], ReadItems(items)[i])
      {
        ItemAt(items, i);
        ReadSame(items[i]);
      }
    case Object(members) =>
      forall i | 0 <= i < |members|
        ensures members[i].0 == ReadMembers(members)[i].0 && Same(members[i].1, ReadMembers(members)[i].1)
      {
        MemberAt(members, i);
        ReadSame(members[i].1);
      }
    case _ =>
  }

  lemma {:induction false} ItemAt(items: seq<Value>, i: nat)
    requires i < |items|
    ensures ReadItems(items)[i] == Read(items[i])
  {
    if i > 0 { ItemAt(items[1..], i - 1); }
  }

  lemma {:induction false} MemberAt(members: Members, i: nat)
    requires i < |members|
    ensures ReadMembers(members)[i] == (members[i].0, Read(members[i].1))
  {
    if i > 0 { MemberAt(members[1..], i - 1); }
  }

  // ---------------------------------------------------------------- blanks

  lemma {:induction false} BreakBlank(pretty: bool, indent: nat)
    ensures AllBlank(Break(pretty, indent))
  {
    if pretty { SpacesBlank(indent); }
  }

  lemma {:induction false} SpacesBlank(n: nat)
    ensures AllBlank(Spaces(n))
  {
    if n > 0 { SpacesBlank(n - 1); }
  }

  // Blanks before a value, an item or a member make no difference.
  lemma BlankBefore(s: string, t: string, depth: nat)
    requires SkipBlank(s) == SkipBlank(t)
    ensures ParseOne(s, depth) == ParseOne(t, depth)
    ensures forall items :: ParseItems(s, depth, items) == ParseItems(t, depth, items)
    ensures forall members :: ParseMembers(s, depth, members) == ParseMembers(t, depth, members)
  {
    hide SkipBlank;
    OneBlankBefore(s, t, depth);
    OneBlankBefore(s, t, depth + 1);
    hide ParseOne;
  }

  lemma OneBlankBefore(s: string, t: string, depth: nat)
    requires SkipBlank(s) == SkipBlank(t)
    ensures ParseOne(s, depth) == ParseOne(t, depth)
  {
    hide SkipBlank, ParseItems, ParseMembers, ParseString, ParseNumber;
  }

  // ---------------------------------------------------------------- strings

  lemma HexNext(s: string, c: char)
    requires HexNumber(s).Some? && HexValue(c).Some?
    ensures HexNumber(s + [c]) == Some(HexNumber(s).value * 16 + HexValue(c).value)
  {
    assert (s + [c])[..|s|] == s;
  }

  lemma HexRead(c: char)
    requires c as int < 0x20
    ensures Unit(['0', '0', HexDigit(c as int / 16), HexDigit(c as int % 16)]) == Some(c as int)
  {
    var x, y := HexDigit(c as int / 16), HexDigit(c as int % 16);
    assert HexValue(x) == Some(c as int / 16) && HexValue(y) == Some(c as int % 16);
    assert HexNumber("") == Some(0) && HexValue('0') == Some(0);
    hide HexNumber, HexValue, HexDigit;
    HexNext("", '0');
    assert "" + ['0'] == ['0'];
    HexNext(['0'], '0');
    assert ['0'] + ['0'] == ['0', '0'];
    HexNext(['0', '0'], x);
    assert ['0', '0'] + [x] == ['0', '0', x];
    HexNext(['0', '0', x], y);
    assert ['0', '0', x] + [y] == ['0', '0', x, y];
  }

  lemma CharRead(c: char, rest: string, read: string)
    ensures ParseString(EscapeChar(c) + rest, read) == ParseString(rest, read + [c])
  {
    var s := EscapeChar(c) + rest;
    if |EscapeChar(c)| == 1 {
      assert s[1..] == rest;
    } else if |EscapeChar(c)| == 2 {
      assert s[1..][1..] == rest;
      assert ParseEscape(s[1..]) == Ok(([c], rest));
    } else {
      var x, y := HexDigit(c as int / 16), HexDigit(c as int % 16);
      HexRead(c);
      assert s[1..][1..] == ['0', '0', x, y] + rest;
      assert (['0', '0', x, y] + rest)[..4] == ['0', '0', x, y] && (['0', '0', x, y] + rest)[4..] == rest;
      assert ParseUnit(['0', '0', x, y] + rest) == Ok((c, rest));
      assert ParseEscape(s[1..]) == Ok(([c], rest));
    }
  }

  lemma {:induction false} StringRead(s: string, rest: string, read: string)
    ensures ParseString(EscapeAll(s) + ("\"" + rest), read) == Ok((read + s, rest))
  {
    var tail := "\"" + rest;
    if s == "" {
      assert EscapeAll(s) + tail == tail && tail[1..] == rest && read + s == read;
    } else {
      assert EscapeAll(s) + tail == EscapeChar(s[0]) + (EscapeAll(s[1..]) + tail);
      CharRead(s[0], EscapeAll(s[1..]) + tail, read);
      StringRead(s[1..], rest, read + [s[0]]);
      assert read + [s[0]] + s[1..] == read + s;
    }
  }

  // ---------------------------------------------------------------- numbers

  // What may follow a value in written text.
  predicate Stops(rest: string) {
    rest == "" || rest[0] == ',' || rest[0] == ']' || rest[0] == '}' || rest[0] == '\n'
  }

  lemma NoMore(rest: string)
    requires Stops(rest)
    ensures FractionLen(rest) == 0 && ExponentSign(rest) == 0 && ExponentLen(rest) == 0
  {
  }

  // The digits of a number and its sign, with nothing after them.
  lemma IntegerRead(n: Number)
    requires Fits(n)
    ensures Integer(NumberText(n)) == Ok(Read(Num(n)).num)
  {
    hide Digits, Decimal.Value;
    var k := n.n;
    var digits := Digits(if k < 0 then -k else k);
    ValueOfDigits(if k < 0 then -k else k);
    if k < 0 { assert ("-" + digits)[1..] == digits; } else { assert IsDigit(digits[0]); }
  }

  lemma NumberRead(n: Number, rest: string)
    requires Fits(n) && Stops(rest)
    ensures var s := NumberText(n) + rest;
      && s != "" && (s[0] == '-' || IsDigit(s[0]))
      && ParseNumber(s) == Ok((Read(Num(n)).num, rest))
  {
    var digits := Digits(if n.n < 0 then -n.n else n.n);
    var text := NumberText(n);
    assert text == if n.n < 0 then "-" + digits else digits;
    assert IsDigit(digits[0]) && IsDigit(text[0]) == (n.n >= 0) && (n.n < 0 ==> text[0] == '-');
    RunOf(digits, rest);
    NoMore(rest);
    IntegerRead(n);
    hide Digits, NumberText, DigitRun, FractionLen, ExponentSign, ExponentLen, Integer, Read, Stops;
    var s := text + rest;
    var a := SignLen(s);
    assert s[a..] == digits + rest;
    assert s[..|text|] == text && s[|text|..] == rest;
  }

  // ---------------------------------------------------------------- values

  // What parsing a written value at a depth gives.
  function Outcome(v: Value, rest: string, depth: nat): Result<(Value, string), Error> {
    if depth + Height(v) <= MAX_DEPTH then Ok((Read(v), rest)) else Err(TooDeep)
  }

  lemma NumberStarts(n: Number)
    requires Fits(n)
    ensures var t := NumberText(n); t != "" && (t[0] == '-' || IsDigit(t[0])) && IsDigit(t[|t| - 1])
  {
    var digits := Digits(if n.n < 0 then -n.n else n.n);
    assert NumberText(n) == if n.n < 0 then "-" + digits else digits;
    assert IsDigit(digits[0]) && IsDigit(digits[|digits| - 1]);
    hide Digits;
  }

  // The first and the last character of a written value.
  predicate Enclosed(t: string, first: char, last: char) {
    t != "" && t[0] == first && t[|t| - 1] == last
  }

  lemma Ends(v: Value, pretty: bool, indent: nat)
    requires !v.Num?
    ensures var t := Text(v, pretty, indent);
      match v
      case Null => Enclosed(t, 'n', 'l')
      case Bool(b) => Enclosed(t, if b then 't' else 'f', 'e')
      case Str(_) => Enclosed(t, '\"', '\"')
      case Array(_) => Enclosed(t, '[', ']')
      case Object(_) => Enclosed(t, '{', '}')
  {
    hide ItemsText, MembersText, EscapeAll, NumberText, Break;
  }

  // A written value starts with no blank and closes nothing, and ends with no blank.
  lemma Starts(v: Value, pretty: bool, indent: nat)
    requires Good(v)
    ensures var t := Text(v, pretty, indent);
      && t != "" && !Blank(t[0]) && t[0] != ']' && t[0] != '}'
      && !White(t[0]) && !White(t[|t| - 1])
  {
    if v.Num? {
      NumberStarts(v.num);
      assert Text(v, pretty, indent) == NumberText(v.num);
      hide NumberText;
    } else {
      Ends(v, pretty, indent);
      hide Text;
    }
  }

  lemma LeafRead(v: Value, pretty: bool, indent: nat, depth: nat, rest: string)
    requires Good(v) && Stops(rest) && (v.Null? || v.Bool? || v.Num? || v.Str?)
    ensures ParseOne(Text(v, pretty, indent) + rest, depth) == Outcome(v, rest, depth)
  {
    hide SkipBlank, ParseNumber, ParseString, NumberText, EscapeAll;
    var s := Text(v, pretty, indent) + rest;
    Starts(v, pretty, indent);
    Unblank(s);
    match v
    case Null => assert s[|"null"|..] == rest && "null" <= s;
    case Bool(b) =>
      if b { assert s[|"true"|..] == rest && "true" <= s; } else { assert s[|"false"|..] == rest && "false" <= s; }
    case Num(n) => NumberRead(n, rest); assert s == NumberText(n) + rest;
    case Str(text) =>
      assert s[1..] == EscapeAll(text) + ("\"" + rest);
      StringRead(text, rest, "");
      assert "" + text == text;
  }

  // Opening an array or an object with something in it.
  lemma OpenRead(inner: string, depth: nat)
    requires var u := SkipBlank(inner); u != "" && u[0] != ']' && u[0] != '}'
    ensures ParseOne("[" + inner, depth) == if depth > MAX_DEPTH then Err(TooDeep) else ParseItems(inner, depth, [])
    ensures ParseOne("{" + inner, depth) == if depth > MAX_DEPTH then Err(TooDeep) else ParseMembers(inner, depth, [])
  {
    var u := SkipBlank(inner);
    SkipTwice(inner);
    BlankBefore(u, inner, depth);
    Unblank("[" + inner);
    Unblank("{" + inner);
    assert ("[" + inner)[1..] == inner && ("{" + inner)[1..] == inner;
    hide SkipBlank, ParseItems, ParseMembers, ParseString, ParseNumber;
  }

  lemma EmptyRead(rest: string, depth: nat)
    ensures ParseOne("[]" + rest, depth) == Outcome(Array([]), rest, depth)
    ensures ParseOne("{}" + rest, depth) == Outcome(Object([]), rest, depth)
  {
    Unblank("[]" + rest);
    Unblank("{}" + rest);
    Unblank("]" + rest);
    Unblank("}" + rest);
    assert ("[]" + rest)[1..] == "]" + rest && ("{}" + rest)[1..] == "}" + rest;
    assert ("]" + rest)[1..] == rest && ("}" + rest)[1..] == rest;
    hide SkipBlank, ParseItems, ParseMembers, ParseString, ParseNumber;
  }

  // A written value after blanks.
  lemma BreakBefore(v: Value, pretty: bool, indent: nat, tail: string, depth: nat)
    requires Good(v)
    ensures var s := Break(pretty, indent) + (Text(v, pretty, indent) + tail);
      && ParseOne(s, depth) == ParseOne(Text(v, pretty, indent) + tail, depth)
      && SkipBlank(s) == Text(v, pretty, indent) + tail
      && SkipBlank(s) != "" && SkipBlank(s)[0] != ']' && SkipBlank(s)[0] != '}'
  {
    hide ParseOne, Good, Text;
    var t := Text(v, pretty, indent) + tail;
    BreakBlank(pretty, indent);
    Skipped(Break(pretty, indent), t);
    Starts(v, pretty, indent);
    Unblank(t);
    BlankBefore(Break(pretty, indent) + t, t, depth);
  }

  lemma CloseRead(pretty: bool, indent: nat, close: string)
    requires close != "" && (close[0] == ']' || close[0] == '}')
    ensures SkipBlank(Break(pretty, indent) + close) == close
    ensures Stops(Break(pretty, indent) + close)
  {
    BreakBlank(pretty, indent);
    Skipped(Break(pretty, indent), close);
    Unblank(close);
    if !pretty { assert Break(pretty, indent) + close == close; }
  }

  // One step of an array, after its item has been read.
  lemma ItemStep(s: string, depth: nat, items: seq<Value>, v: Value, tail: string)
    requires ParseOne(s, depth + 1) == Outcome(v, tail, depth + 1)
    ensures depth + 1 + Height(v) > MAX_DEPTH ==> ParseItems(s, depth, items) == Err(TooDeep)
    ensures depth + 1 + Height(v) <= MAX_DEPTH ==>
      var u := SkipBlank(tail);
      && (u != "" && u[0] == ']' ==> ParseItems(s, depth, items) == Ok((Array(items + [Read(v)]), u[1..])))
      && (u != "" && u[0] == ',' ==> ParseItems(s, depth, items) == ParseItems(u[1..], depth, items + [Read(v)]))
  {
    hide SkipBlank, ParseOne, Height, Read;
  }

  // One step of an object, after its value has been read.
  lemma MemberStep(s: string, depth: nat, members: Members, key: string, v: Value, after: string, tail: string)
    requires SkipBlank(s) == "\"" + (EscapeAll(key) + ("\"" + (":" + after)))
    requires ParseOne(after, depth + 1) == Outcome(v, tail, depth + 1)
    ensures depth + 1 + Height(v) > MAX_DEPTH ==> ParseMembers(s, depth, members) == Err(TooDeep)
    ensures depth + 1 + Height(v) <= MAX_DEPTH ==>
      var u := SkipBlank(tail);
      var more := OrderedMap.Put(members, key, Read(v));
      && (u != "" && u[0] == '}' ==> ParseMembers(s, depth, members) == Ok((Object(more), u[1..])))
      && (u != "" && u[0] == ',' ==> ParseMembers(s, depth, members) == ParseMembers(u[1..], depth, more))
  {
    StringRead(key, ":" + after, "");
    Unblank(":" + after);
    assert "" + key == key && (":" + after)[1..] == after;
    var inner := EscapeAll(key) + ("\"" + (":" + after));
    assert ("\"" + inner)[1..] == inner;
    hide SkipBlank, ParseOne, Height, Read, ParseString, EscapeAll, OrderedMap.Put;
  }

  lemma {:induction false} OneRead(v: Value, pretty: bool, indent: nat, depth: nat, rest: string)
    requires Good(v) && Stops(rest)
    ensures ParseOne(Text(v, pretty, indent) + rest, depth) == Outcome(v, rest, depth)
    decreases v, 1
  {
    match v
    case Array(items) => ArrayRead(v, pretty, indent, depth, rest);
    case Object(members) => ObjectRead(v, pretty, indent, depth, rest);
    case _ => LeafRead(v, pretty, indent, depth, rest);
  }

  lemma ArrayText(items: seq<Value>, pretty: bool, indent: nat, rest: string)
    ensures Text(Array(items), pretty, indent) + rest ==
      if items == [] then "[]" + rest else "[" + ItemsInside(items, pretty, indent, rest)
  {
  }

  lemma ObjectText(members: Members, pretty: bool, indent: nat, rest: string)
    ensures Text(Object(members), pretty, indent) + rest ==
      if members == [] then "{}" + rest else "{" + MembersInside(members, pretty, indent, rest)
  {
  }

  lemma {:induction false} ArrayRead(v: Value, pretty: bool, indent: nat, depth: nat, rest: string)
    requires v.Array? && Good(v) && Stops(rest)
    ensures ParseOne(Text(v, pretty, indent) + rest, depth) == Outcome(v, rest, depth)
    decreases v, 0
  {
    hide Stops, ParseOne, ParseItems, Text, ItemsText, SkipBlank;
    var items := v.items;
    ArrayText(items, pretty, indent, rest);
    if items == [] {
      EmptyRead(rest, depth);
    } else {
      ItemsRead(items, pretty, indent, depth, [], rest);
      ItemsStart(items, pretty, indent, rest);
      OpenRead(ItemsInside(items, pretty, indent, rest), depth);
      assert [] + ReadItems(items) == ReadItems(items);
    }
  }

  lemma {:induction false} ObjectRead(v: Value, pretty: bool, indent: nat, depth: nat, rest: string)
    requires v.Object? && Good(v) && Stops(rest)
    ensures ParseOne(Text(v, pretty, indent) + rest, depth) == Outcome(v, rest, depth)
    decreases v, 0
  {
    hide Stops, ParseOne, ParseMembers, Text, MembersText, SkipBlank;
    var members := v.members;
    ObjectText(members, pretty, indent, rest);
    if members == [] {
      EmptyRead(rest, depth);
    } else {
      assert [] + members == members;
      MembersRead(members, pretty, indent, depth, [], rest);
      MembersStart(members, pretty, indent, rest);
      OpenRead(MembersInside(members, pretty, indent, rest), depth);
      assert [] + ReadMembers(members) == ReadMembers(members);
    }
  }

  // The text after an opening bracket, and after an opening brace.
  function ItemsInside(items: seq<Value>, pretty: bool, indent: nat, rest: string): string {
    if items == [] then "" else ItemsText(items, pretty, indent) + (Break(pretty, indent) + ("]" + rest))
  }

  function MembersInside(members: Members, pretty: bool, indent: nat, rest: string): string {
    if members == [] then "" else MembersText(members, pretty, indent) + (Break(pretty, indent) + ("}" + rest))
  }

  // What follows the first item, and the first member.
  function ItemsTail(items: seq<Value>, pretty: bool, indent: nat, rest: string): string
    requires items != []
  {
    if |items| == 1 then Break(pretty, indent) + ("]" + rest) else "," + ItemsInside(items[1..], pretty, indent, rest)
  }

  function MembersTail(members: Members, pretty: bool, indent: nat, rest: string): string
    requires members != []
  {
    if |members| == 1 then Break(pretty, indent) + ("}" + rest) else "," + MembersInside(members[1..], pretty, indent, rest)
  }

  lemma FirstItem(items: seq<Value>, pretty: bool, indent: nat, rest: string)
    requires items != []
    ensures ItemsInside(items, pretty, indent, rest) ==
      Break(pretty, indent + 2) + (Text(items[0], pretty, indent + 2) + ItemsTail(items, pretty, indent, rest))
    ensures Stops(ItemsTail(items, pretty, indent, rest))
  {
    hide Break, Text;
    var v := Text(items[0], pretty, indent + 2);
    var close := Break(pretty, indent) + ("]" + rest);
    CloseRead(pretty, indent, "]" + rest);
    if |items| == 1 {
      assert ItemsText(items, pretty, indent) == Break(pretty, indent + 2) + v + "";
      Regroup(Break(pretty, indent + 2), v, "", close);
      assert "" + close == close;
    } else {
      var more := "," + ItemsText(items[1..], pretty, indent);
      assert ItemsText(items, pretty, indent) == Break(pretty, indent + 2) + v + more;
      Regroup(Break(pretty, indent + 2), v, more, close);
      assert more + close == "," + ItemsInside(items[1..], pretty, indent, rest);
    }
  }

  lemma Regroup(b: string, t: string, x: string, c: string)
    ensures b + t + x + c == b + (t + (x + c))
  {
  }

  // The value of the first member, after the colon.
  function MemberRest(members: Members, pretty: bool, indent: nat, rest: string): string
    requires members != []
  {
    (if pretty then " " else "") + (Text(members[0].1, pretty, indent + 2) + MembersTail(members, pretty, indent, rest))
  }

  lemma FirstMember(members: Members, pretty: bool, indent: nat, rest: string)
    requires members != []
    ensures MembersInside(members, pretty, indent, rest) ==
      Break(pretty, indent + 2) + ("\"" + (EscapeAll(members[0].0) + ("\"" + (":" + MemberRest(members, pretty, indent, rest)))))
    ensures Stops(MembersTail(members, pretty, indent, rest))
  {
    hide Break, Text, EscapeAll;
    var m, tail := members[0], MembersTail(members, pretty, indent, rest);
    CloseRead(pretty, indent, "}" + rest);
    MembersFirst(members, pretty, indent, rest);
    Nested("\"", EscapeAll(m.0), ":", if pretty then " " else "", Text(m.1, pretty, indent + 2), tail);
    assert MemberText(m, pretty, indent + 2) + tail == "\"" + (EscapeAll(m.0) + ("\"" + (":" + MemberRest(members, pretty, indent, rest))));
  }

  lemma MembersFirst(members: Members, pretty: bool, indent: nat, rest: string)
    requires members != []
    ensures MembersInside(members, pretty, indent, rest) ==
      Break(pretty, indent + 2) + (MemberText(members[0], pretty, indent + 2) + MembersTail(members, pretty, indent, rest))
  {
    hide Break, MemberText;
    var first, m := Break(pretty, indent + 2), MemberText(members[0], pretty, indent + 2);
    var close := Break(pretty, indent) + ("}" + rest);
    if |members| == 1 {
      assert MembersText(members, pretty, indent) == first + m + "";
      Regroup(first, m, "", close);
      assert "" + close == close;
    } else {
      var more := "," + MembersText(members[1..], pretty, indent);
      assert MembersText(members, pretty, indent) == first + m + more;
      Regroup(first, m, more, close);
      assert more + close == "," + MembersInside(members[1..], pretty, indent, rest);
    }
  }

  lemma Nested(q: string, e: string, c: string, b: string, x: string, t: string)
    ensures q + e + q + c + b + x + t == q + (e + (q + (c + (b + (x + t)))))
  {
  }

  // What is inside brackets or braces starts, after blanks, with neither a bracket nor a brace that closes.
  lemma ItemsStart(items: seq<Value>, pretty: bool, indent: nat, rest: string)
    requires items != [] && Good(items[0])
    ensures var u := SkipBlank(ItemsInside(items, pretty, indent, rest)); u != "" && u[0] != ']' && u[0] != '}'
  {
    hide SkipBlank, Text, Good, ItemsText, ItemsInside, ItemsTail, Stops, Break;
    FirstItem(items, pretty, indent, rest);
    BreakBefore(items[0], pretty, indent + 2, ItemsTail(items, pretty, indent, rest), 0);
  }

  lemma MembersStart(members: Members, pretty: bool, indent: nat, rest: string)
    requires members != []
    ensures var u := SkipBlank(MembersInside(members, pretty, indent, rest)); u != "" && u[0] == '\"'
  {
    hide SkipBlank, Text, MembersText, MembersInside, MembersTail, MemberRest, Stops, Break, EscapeAll;
    FirstMember(members, pretty, indent, rest);
    KeyStart(pretty, indent + 2, EscapeAll(members[0].0) + ("\"" + (":" + MemberRest(members, pretty, indent, rest))));
  }

  // The first item of an array, once it has been read.
  lemma ItemInside(items: seq<Value>, pretty: bool, indent: nat, depth: nat, done: seq<Value>, rest: string)
    requires items != [] && Good(items[0])
    requires var tail := ItemsTail(items, pretty, indent, rest);
      ParseOne(Text(items[0], pretty, indent + 2) + tail, depth + 1) == Outcome(items[0], tail, depth + 1)
    ensures var s := ItemsInside(items, pretty, indent, rest);
      var more := done + [Read(items[0])];
      if depth + 1 + Height(items[0]) > MAX_DEPTH then ParseItems(s, depth, done) == Err(TooDeep)
      else if |items| == 1 then ParseItems(s, depth, done) == Ok((Array(more), rest))
      else ParseItems(s, depth, done) == ParseItems(ItemsInside(items[1..], pretty, indent, rest), depth, more)
  {
    hide SkipBlank, ParseOne, ParseItems, Text, Good, Height, Read, ItemsText, ItemsInside, ItemsTail, Stops, Break, Outcome;
    var tail := ItemsTail(items, pretty, indent, rest);
    AfterItem(items, pretty, indent, rest);
    FirstItem(items, pretty, indent, rest);
    BreakBefore(items[0], pretty, indent + 2, tail, depth + 1);
    ItemStep(ItemsInside(items, pretty, indent, rest), depth, done, items[0], tail);
  }

  lemma {:induction false} ItemsRead(items: seq<Value>, pretty: bool, indent: nat, depth: nat, done: seq<Value>, rest: string)
    requires items != [] && (forall i :: 0 <= i < |items| ==> Good(items[i])) && Stops(rest)
    ensures ParseItems(ItemsInside(items, pretty, indent, rest), depth, done) ==
      if depth + 1 + ItemsHeight(items) <= MAX_DEPTH then Ok((Array(done + ReadItems(items)), rest)) else Err(TooDeep)
    decreases items, 0
  {
    hide ParseOne, ParseItems, Text, Good, Height, Read, ItemsInside, ItemsTail, Stops;
    FirstItem(items, pretty, indent, rest);
    OneRead(items[0], pretty, indent + 2, depth + 1, ItemsTail(items, pretty, indent, rest));
    ItemInside(items, pretty, indent, depth, done, rest);
    var more := done + [Read(items[0])];
    if |items| == 1 {
      assert ReadItems(items) == [Read(items[0])];
    } else {
      ItemsRead(items[1..], pretty, indent, depth, more, rest);
      assert more + ReadItems(items[1..]) == done + ReadItems(items);
    }
  }

  // After the first item comes the closing bracket, or a comma and the other items.
  lemma AfterItem(items: seq<Value>, pretty: bool, indent: nat, rest: string)
    requires items != []
    ensures var u := SkipBlank(ItemsTail(items, pretty, indent, rest));
      && u != ""
      && (|items| == 1 ==> u[0] == ']' && u[1..] == rest)
      && (|items| > 1 ==> u[0] == ',' && u[1..] == ItemsInside(items[1..], pretty, indent, rest))
  {
    hide Break, ItemsInside;
    if |items| == 1 { CloseRead(pretty, indent, "]" + rest); } else { Unblank(ItemsTail(items, pretty, indent, rest)); }
  }

  lemma AfterMember(members: Members, pretty: bool, indent: nat, rest: string)
    requires members != []
    ensures var u := SkipBlank(MembersTail(members, pretty, indent, rest));
      && u != ""
      && (|members| == 1 ==> u[0] == '}' && u[1..] == rest)
      && (|members| > 1 ==> u[0] == ',' && u[1..] == MembersInside(members[1..], pretty, indent, rest))
  {
    hide Break, MembersInside;
    if |members| == 1 { CloseRead(pretty, indent, "}" + rest); } else { Unblank(MembersTail(members, pretty, indent, rest)); }
  }

  // The first member of an object, once its value has been read.
  lemma MemberInside(members: Members, pretty: bool, indent: nat, depth: nat, done: Members, rest: string)
    requires members != [] && OrderedMap.Distinct(done + members)
    requires var m := members[0];
      ParseOne(MemberRest(members, pretty, indent, rest), depth + 1) == Outcome(m.1, MembersTail(members, pretty, indent, rest), depth + 1)
    ensures var m := members[0];
      var s := MembersInside(members, pretty, indent, rest);
      var more := done + [(m.0, Read(m.1))];
      if depth + 1 + Height(m.1) > MAX_DEPTH then ParseMembers(s, depth, done) == Err(TooDeep)
      else if |members| == 1 then ParseMembers(s, depth, done) == Ok((Object(more), rest))
      else ParseMembers(s, depth, done) == ParseMembers(MembersInside(members[1..], pretty, indent, rest), depth, more)
  {
    hide SkipBlank, ParseOne, ParseMembers, Text, Height, Read, MembersInside, MembersTail, MemberRest, Stops, Break,
         OrderedMap.Put, OrderedMap.Distinct, EscapeAll, Outcome;
    var m, after := members[0], MemberRest(members, pretty, indent, rest);
    AfterMember(members, pretty, indent, rest);
    FirstMember(members, pretty, indent, rest);
    KeyStart(pretty, indent + 2, EscapeAll(m.0) + ("\"" + (":" + after)));
    MemberStep(MembersInside(members, pretty, indent, rest), depth, done, m.0, m.1, after, MembersTail(members, pretty, indent, rest));
    NewKey(done, members, Read(m.1));
  }

  lemma {:induction false} MembersRead(members: Members, pretty: bool, indent: nat, depth: nat, done: Members, rest: string)
    requires members != [] && (forall i :: 0 <= i < |members| ==> Good(members[i].1)) && Stops(rest)
    requires OrderedMap.Distinct(done + members)
    ensures ParseMembers(MembersInside(members, pretty, indent, rest), depth, done) ==
      if depth + 1 + MembersHeight(members) <= MAX_DEPTH then Ok((Object(done + ReadMembers(members)), rest)) else Err(TooDeep)
    decreases members, 0
  {
    hide ParseOne, ParseMembers, Text, Good, Height, Read, MembersInside, MembersTail, Stops, OrderedMap.Distinct;
    var m := members[0];
    FirstMember(members, pretty, indent, rest);
    MemberRead(m, pretty, indent + 2, MembersTail(members, pretty, indent, rest), depth + 1);
    MemberInside(members, pretty, indent, depth, done, rest);
    NewKey(done, members, Read(m.1));
    var more := done + [(m.0, Read(m.1))];
    if |members| == 1 {
      assert ReadMembers(members) == [(m.0, Read(m.1))];
    } else {
      MembersRead(members[1..], pretty, indent, depth, more, rest);
      assert more + ReadMembers(members[1..]) == done + ReadMembers(members);
    }
  }

  // The value of a member, after the blank that follows a colon in pretty text.
  lemma {:induction false} MemberRead(m: (string, Value), pretty: bool, indent: nat, tail: string, depth: nat)
    requires Good(m.1) && Stops(tail)
    ensures ParseOne((if pretty then " " else "") + (Text(m.1, pretty, indent) + tail), depth) == Outcome(m.1, tail, depth)
    decreases m, 0
  {
    OneRead(m.1, pretty, indent, depth, tail);
    ColonBefore(m.1, pretty, indent, tail, depth);
  }

  lemma ColonBefore(v: Value, pretty: bool, indent: nat, tail: string, depth: nat)
    ensures var t := Text(v, pretty, indent) + tail; ParseOne((if pretty then " " else "") + t, depth) == ParseOne(t, depth)
  {
    var t := Text(v, pretty, indent) + tail;
    var space := if pretty then " " else "";
    Skipped(space, t);
    BlankBefore(space + t, t, depth);
  }

  lemma KeyStart(pretty: bool, indent: nat, s: string)
    ensures SkipBlank(Break(pretty, indent) + ("\"" + s)) == "\"" + s
  {
    BreakBlank(pretty, indent);
    Skipped(Break(pretty, indent), "\"" + s);
    Unblank("\"" + s);
  }

  // A key that has not been read before is added at the end.
  lemma NewKey(done: Members, members: Members, v: Value)
    requires members != [] && OrderedMap.Distinct(done + members)
    ensures OrderedMap.Put(done, members[0].0, v) == done + [(members[0].0, v)]
    ensures OrderedMap.Distinct(done + [(members[0].0, v)] + members[1..])
  {
    var all := done + members;
    assert all[|done|] == members[0];
    forall i | 0 <= i < |done| ensures done[i].0 != members[0].0 { assert all[i] == done[i]; }
    OrderedMap.PutNew(done, members[0].0, v);
    var next := done + [(members[0].0, v)] + members[1..];
    assert |next| == |all| && forall i :: 0 <= i < |all| ==> next[i].0 == all[i].0;
  }

  // ---------------------------------------------------------------- the law

  // Compact or pretty, the text of a value is read back as an equal value exactly when
  // its nesting is within the limit.
  lemma RoundTrip(v: Value, pretty: bool)
    requires Good(v)
    ensures ParseValue(Text(v, pretty, 0)) == if Height(v) <= MAX_DEPTH then Ok(Read(v)) else Err(TooDeep)
    ensures (exists w :: ParseValue(Text(v, pretty, 0)) == Ok(w) && Same(v, w)) <==> Height(v) <= MAX_DEPTH
  {
    hide Text, ParseOne, Good, Height, Read, Same, White;
    var t := Text(v, pretty, 0);
    Starts(v, pretty, 0);
    OneRead(v, pretty, 0, 0, "");
    assert t + "" == t;
    ReadSame(v);
    if Height(v) <= MAX_DEPTH {
      assert ParseValue(t) == Ok(Read(v)) && Same(v, Read(v));
    }
  }
}
