// JSON text of src/util.rs: what the writer writes and what the parser reads, on code points.
module Json {
  import opened Wrappers
  import opened Decimal
  import OrderedMap

  // A float is kept as its text.
  datatype Number = Int(n: int) | UInt(n: int) | Float(text: string)

  type Members = seq<(string, Value)>

  datatype Value =
    | Null
    | Bool(b: bool)
    | Num(num: Number)
    | Str(text: string)
    | Array(items: seq<Value>)
    | Object(members: Members)

  datatype Error =
    | Empty | TooDeep | UnexpectedEnd | UnexpectedChar | Expected | Trailing
    | UnterminatedEscape | TruncatedUnicode | InvalidUnicode | LoneSurrogate | UnterminatedString
    | InvalidInteger | InvalidFloat
    | UnterminatedArray | ArraySeparator | KeyExpected | ColonExpected | UnterminatedObject | ObjectSeparator

  const MAX_DEPTH := 128

  // ---------------------------------------------------------------- writing

  function HexDigit(n: nat): (c: char)
    requires n < 16
  {
    "0123456789abcdef"[n]
  }

  function EscapeChar(c: char): string {
    if c == '\"' then "\\\""
    else if c == '\\' then "\\\\"
    else if c == '\n' then "\\n"
    else if c == '\r' then "\\r"
    else if c == '\t' then "\\t"
    else if c as int < 0x20 then "\\u00" + [HexDigit(c as int / 16), HexDigit(c as int % 16)]
    else [c]
  }

  function EscapeAll(s: string): string {
    if s == "" then "" else EscapeChar(s[0]) + EscapeAll(s[1..])
  }

  function StringText(s: string): string {
    "\"" + EscapeAll(s) + "\""
  }

  function NumberText(n: Number): string {
    match n
    case Int(k) => if k < 0 then "-" + Digits(-k) else Digits(k)
    case UInt(k) => if k < 0 then "" else Digits(k)
    case Float(text) => text
  }

  function Spaces(n: nat): string {
    if n == 0 then "" else Spaces(n - 1) + " "
  }

  function Break(pretty: bool, indent: nat): string {
    if pretty then "\n" + Spaces(indent) else ""
  }

  function Text(v: Value, pretty: bool, indent: nat): string
    decreases v, 0
  {
    match v
    case Null => "null"
    case Bool(b) => if b then "true" else "false"
    case Num(n) => NumberText(n)
    case Str(s) => StringText(s)
    case Array(items) =>
      if items == [] then "[]"
      else "[" + ItemsText(items, pretty, indent) + (Break(pretty, indent) + "]")
    case Object(members) =>
      if members == [] then "{}"
      else "{" + MembersText(members, pretty, indent) + (Break(pretty, indent) + "}")
  }

  function ItemsText(items: seq<Value>, pretty: bool, indent: nat): string
    requires items != []
    decreases items, 0
  {
    Break(pretty, indent + 2) + Text(items[0], pretty, indent + 2)
    + if |items| == 1 then "" else "," + ItemsText(items[1..], pretty, indent)
  }

  function MemberText(m: (string, Value), pretty: bool, indent: nat): string
    decreases m, 1
  {
    StringText(m.0) + ":" + (if pretty then " " else "") + Text(m.1, pretty, indent)
  }

  function MembersText(members: Members, pretty: bool, indent: nat): string
    requires members != []
    decreases members, 0
  {
    Break(pretty, indent + 2) + MemberText(members[0], pretty, indent + 2)
    + if |members| == 1 then "" else "," + MembersText(members[1..], pretty, indent)
  }

  // ---------------------------------------------------------------- reading

  predicate Blank(c: char) {
    c == ' ' || c == '\t' || c == '\n' || c == '\r' || c as int == 0x0C
  }

  function SkipBlank(s: string): (r: string)
    ensures |r| <= |s|
    ensures r != "" ==> !Blank(r[0])
  {
    if s != "" && Blank(s[0]) then SkipBlank(s[1..]) else s
  }

  function HexValue(c: char): Option<nat> {
    if '0' <= c <= '9' then Some(c as int - '0' as int)
    else if 'a' <= c <= 'f' then Some(c as int - 'a' as int + 10)
    else if 'A' <= c <= 'F' then Some(c as int - 'A' as int + 10)
    else None
  }

  function HexRun(s: string): (r: Option<nat>)
    ensures r.Some? && |s| <= 4 ==> r.value < 0x1_0000
  {
    HexBound(s);
    HexNumber(s)
  }

  function HexNumber(s: string): Option<nat> {
    if s == "" then Some(0)
    else
      match HexNumber(s[..|s| - 1])
      case None => None
      case Some(n) =>
        match HexValue(s[|s| - 1])
        case None => None
        case Some(d) => Some(n * 16 + d)
  }

  lemma HexBound(s: string)
    ensures |s| <= 1 && HexNumber(s).Some? ==> HexNumber(s).value < 0x10
    ensures |s| <= 2 && HexNumber(s).Some? ==> HexNumber(s).value < 0x100
    ensures |s| <= 3 && HexNumber(s).Some? ==> HexNumber(s).value < 0x1000
    ensures |s| <= 4 && HexNumber(s).Some? ==> HexNumber(s).value < 0x1_0000
  {
    if s != "" { HexBound(s[..|s| - 1]); }
  }

  // A leading plus sign is accepted by the number reader of the source's library.
  function Unit(s: string): (r: Option<nat>)
    requires |s| == 4
    ensures r.Some? ==> r.value < 0x1_0000
  {
    HexRun(if s[0] == '+' then s[1..] else s)
  }

  // What follows a backslash and a u.
  function ParseUnit(s: string): (r: Result<(char, string), Error>)
    ensures r.Ok? ==> |r.value.1| < |s|
  {
    if |s| < 4 then Err(TruncatedUnicode)
    else
      match Unit(s[..4])
      case None => Err(InvalidUnicode)
      case Some(code) =>
        if 0xD800 <= code <= 0xDBFF then
          if |s| < 10 || s[4] != '\\' || s[5] != 'u' then Err(LoneSurrogate)
          else
            match Unit(s[6..10])
            case None => Err(InvalidUnicode)
            case Some(low) =>
              if !(0xDC00 <= low <= 0xDFFF) then Err(LoneSurrogate)
              else Ok(((0x1_0000 + (code - 0xD800) * 0x400 + (low - 0xDC00)) as char, s[10..]))
        else if 0xDC00 <= code <= 0xDFFF then Err(LoneSurrogate)
        else Ok((code as char, s[4..]))
  }

  // What follows a backslash.
  function ParseEscape(s: string): (r: Result<(string, string), Error>)
    ensures r.Ok? ==> |r.value.1| < |s|
  {
    if s == "" then Err(UnterminatedEscape)
    else if s[0] == 'u' then
      match ParseUnit(s[1..])
      case Err(e) => Err(e)
      case Ok((c, rest)) => Ok(([c], rest))
    else
      Ok((
        if s[0] == '\"' || s[0] == '\\' || s[0] == '/' then [s[0]]
        else if s[0] == 'b' then [0x08 as char]
        else if s[0] == 'f' then [0x0C as char]
        else if s[0] == 'n' then "\n"
        else if s[0] == 'r' then "\r"
        else if s[0] == 't' then "\t"
        else ['\\', s[0]],
        s[1..]))
  }

  // What follows the opening quote, given the text read so far.
  function ParseString(s: string, read: string): (r: Result<(string, string), Error>)
    ensures r.Ok? ==> |r.value.1| < |s|
    decreases |s|
  {
    if s == "" then Err(UnterminatedString)
    else if s[0] == '\"' then Ok((read, s[1..]))
    else if s[0] == '\\' then
      match ParseEscape(s[1..])
      case Err(e) => Err(e)
      case Ok((text, rest)) => ParseString(rest, read + text)
    else ParseString(s[1..], read + [s[0]])
  }

  function DigitRun(s: string): (n: nat)
    ensures n <= |s| && AllDigits(s[..n])
    ensures n < |s| ==> !IsDigit(s[n])
  {
    if s != "" && IsDigit(s[0]) then
      var n := DigitRun(s[1..]);
      assert s[..n + 1] == [s[0]] + s[1..][..n];
      n + 1
    else 0
  }

  // A number of these digits and no fraction: signed if it fits, else unsigned, else a float.
  function Integer(text: string): Result<Number, Error> {
    if text != "" && text[0] == '-' then
      if ParseI64(text).Some? then Ok(Int(ParseI64(text).value)) else Err(InvalidInteger)
    else if ParseI64(text).Some? then Ok(Int(ParseI64(text).value))
    else if ParseU64(text).Some? then Ok(UInt(ParseU64(text).value))
    else Ok(Float(text))
  }

  // How far a fraction, and an exponent, reach at the start of a text.
  function FractionLen(s: string): (n: nat)
    ensures n <= |s|
  {
    if s != "" && s[0] == '.' then 1 + DigitRun(s[1..]) else 0
  }

  function ExponentSign(s: string): (n: nat)
    ensures n <= |s|
  {
    if s != "" && (s[0] == 'e' || s[0] == 'E') then
      if |s| > 1 && (s[1] == '+' || s[1] == '-') then 2 else 1
    else 0
  }

  function ExponentLen(s: string): (n: nat)
    ensures n <= |s|
  {
    var sign := ExponentSign(s);
    if sign > 0 then sign + DigitRun(s[sign..]) else 0
  }

  // The number of a text of three parts: a float needs a digit before its exponent and one in it.
  function NumberOf(text: string, digits: nat, fraction: nat, sign: nat, exponent: nat): Result<Number, Error> {
    if fraction > 0 || exponent > 0 then
      if (digits > 0 || fraction > 1) && (exponent > 0 ==> exponent > sign) then Ok(Float(text)) else Err(InvalidFloat)
    else Integer(text)
  }

  function SignLen(s: string): (n: nat)
    ensures n <= |s|
  {
    if s != "" && s[0] == '-' then 1 else 0
  }

  // A sign, digits, a fraction and an exponent of these lengths.
  function NumberParts(s: string, a: nat, digits: nat, fraction: nat, exponent: nat): Result<(Number, string), Error>
    requires a + digits + fraction + exponent <= |s|
  {
    var end := a + digits + fraction + exponent;
    match NumberOf(s[..end], digits, fraction, ExponentSign(s[a + digits + fraction..]), exponent)
    case Err(e) => Err(e)
    case Ok(n) => Ok((n, s[end..]))
  }

  function ParseNumber(s: string): (r: Result<(Number, string), Error>)
    requires s != "" && (s[0] == '-' || IsDigit(s[0]))
    ensures r.Ok? ==> |r.value.1| < |s|
  {
    var a := SignLen(s);
    var digits := DigitRun(s[a..]);
    var fraction := FractionLen(s[a + digits..]);
    var exponent := ExponentLen(s[a + digits + fraction..]);
    assert a == 0 ==> s[a..] == s;
    NumberParts(s, a, digits, fraction, exponent)
  }

  function Expect(s: string, word: string, v: Value): Result<(Value, string), Error> {
    if word <= s then Ok((v, s[|word|..])) else Err(Expected)
  }

  function ParseOne(s: string, depth: nat): (r: Result<(Value, string), Error>)
    ensures r.Ok? ==> |r.value.1| < |s|
    decreases |s|, 0
  {
    var t := SkipBlank(s);
    if depth > MAX_DEPTH then Err(TooDeep)
    else if t == "" then Err(UnexpectedEnd)
    else if t[0] == 'n' then Expect(t, "null", Null)
    else if t[0] == 't' then Expect(t, "true", Bool(true))
    else if t[0] == 'f' then Expect(t, "false", Bool(false))
    else if t[0] == '\"' then
      match ParseString(t[1..], "")
      case Err(e) => Err(e)
      case Ok((text, rest)) => Ok((Str(text), rest))
    else if t[0] == '[' then
      var u := SkipBlank(t[1..]);
      if u != "" && u[0] == ']' then Ok((Array([]), u[1..])) else ParseItems(u, depth, [])
    else if t[0] == '{' then
      var u := SkipBlank(t[1..]);
      if u != "" && u[0] == '}' then Ok((Object([]), u[1..])) else ParseMembers(u, depth, [])
    else if t[0] == '-' || IsDigit(t[0]) then
      match ParseNumber(t)
      case Err(e) => Err(e)
      case Ok((n, rest)) => Ok((Num(n), rest))
    else Err(UnexpectedChar)
  }

  function ParseItems(s: string, depth: nat, items: seq<Value>): (r: Result<(Value, string), Error>)
    ensures r.Ok? ==> |r.value.1| < |s|
    decreases |s|, 1
  {
    match ParseOne(s, depth + 1)
    case Err(e) => Err(e)
    case Ok((v, rest)) =>
      var u := SkipBlank(rest);
      if u == "" then Err(UnterminatedArray)
      else if u[0] == ']' then Ok((Array(items + [v]), u[1..]))
      else if u[0] != ',' then Err(ArraySeparator)
      else ParseItems(u[1..], depth, items + [v])
  }

  // A repeated key keeps its place and takes the later value.
  function ParseMembers(s: string, depth: nat, members: Members): (r: Result<(Value, string), Error>)
    ensures r.Ok? ==> |r.value.1| < |s|
    decreases |s|, 1
  {
    var t := SkipBlank(s);
    if t == "" || t[0] != '\"' then Err(KeyExpected)
    else
      match ParseString(t[1..], "")
      case Err(e) => Err(e)
      case Ok((key, r1)) =>
        var c := SkipBlank(r1);
        if c == "" || c[0] != ':' then Err(ColonExpected)
        else
          match ParseOne(c[1..], depth + 1)
          case Err(e) => Err(e)
          case Ok((v, r2)) =>
            var more := OrderedMap.Put(members, key, v);
            var u := SkipBlank(r2);
            if u == "" then Err(UnterminatedObject)
            else if u[0] == '}' then Ok((Object(more), u[1..]))
            else if u[0] != ',' then Err(ObjectSeparator)
            else ParseMembers(u[1..], depth, more)
  }

  predicate White(c: char) {
    c == ' ' || 0x09 <= c as int <= 0x0D
  }

  function Trim(s: string): string {
    if s != "" && White(s[0]) then Trim(s[1..])
    else if s != "" && White(s[|s| - 1]) then Trim(s[..|s| - 1])
    else s
  }

  function ParseValue(input: string): Result<Value, Error> {
    var s := Trim(input);
    if s == "" then Err(Empty)
    else
      match ParseOne(s, 0)
      case Err(e) => Err(e)
      case Ok((v, rest)) => if SkipBlank(rest) == "" then Ok(v) else Err(Trailing)
  }

  // ---------------------------------------------------------------- blanks and digits

  predicate AllBlank(s: string) {
    forall i :: 0 <= i < |s| ==> Blank(s[i])
  }

  lemma {:induction false} Skipped(blank: string, s: string)
    requires AllBlank(blank)
    ensures SkipBlank(blank + s) == SkipBlank(s)
  {
    if blank == "" {
      assert blank + s == s;
    } else {
      assert (blank + s)[0] == blank[0] && (blank + s)[1..] == blank[1..] + s;
      Skipped(blank[1..], s);
    }
  }

  lemma {:induction false} SkipTwice(s: string)
    ensures SkipBlank(SkipBlank(s)) == SkipBlank(s)
  {
  }

  lemma Unblank(s: string)
    requires s != "" && !Blank(s[0])
    ensures SkipBlank(s) == s
  {
  }

  lemma {:induction false} RunOf(digits: string, rest: string)
    requires AllDigits(digits) && (rest == "" || !IsDigit(rest[0]))
    ensures DigitRun(digits + rest) == |digits|
  {
    if digits == "" {
      assert digits + rest == rest;
    } else {
      assert (digits + rest)[1..] == digits[1..] + rest;
      RunOf(digits[1..], rest);
    }
  }

  function Larger(m: nat, n: nat): nat {
    if m >= n then m else n
  }
}
