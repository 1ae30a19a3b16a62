// The recursive-descent parser of src/util.rs over a position in its input.
module JsonParser {
  import opened Wrappers
  import opened Json
  import D = Decimal
  import M = OrderedMap

  // A result and the text left over are what a reading function says.
  ghost predicate Agrees<T>(r: Result<T, Error>, spec: Result<(T, string), Error>, left: string) {
    match r
    case Ok(v) => spec == Ok((v, left))
    case Err(e) => spec == Err(e)
  }

  // An array or an object after its opening character.
  function AfterBracket(s: string, depth: nat): Result<(Value, string), Error> {
    var u := SkipBlank(s);
    if u != "" && u[0] == ']' then Ok((Array([]), u[1..])) else ParseItems(u, depth, [])
  }

  function AfterBrace(s: string, depth: nat): Result<(Value, string), Error> {
    var u := SkipBlank(s);
    if u != "" && u[0] == '}' then Ok((Object([]), u[1..])) else ParseMembers(u, depth, [])
  }

  lemma FirstDigit(s: string)
    requires s != "" && D.IsDigit(s[0])
    ensures s[0..] == s && DigitRun(s) > 0
  {
  }

  lemma Drops(s: string, a: nat, b: nat)
    requires a <= b <= |s|
    ensures s[a..][b - a..] == s[b..] && s[a..][..b - a] == s[a..b]
  {
  }

  // The parts of a number, one after the other.
  lemma NumberAgrees(s: string, a: nat, digits: nat, fraction: nat, exponent: nat)
    requires s != "" && (s[0] == '-' || D.IsDigit(s[0]))
    requires a == SignLen(s) && a + digits + fraction + exponent <= |s|
    requires digits == DigitRun(s[a..])
    requires fraction == FractionLen(s[a + digits..])
    requires exponent == ExponentLen(s[a + digits + fraction..])
    ensures var end := a + digits + fraction + exponent;
      Agrees(NumberOf(s[..end], digits, fraction, ExponentSign(s[a + digits + fraction..]), exponent), ParseNumber(s), s[end..])
    ensures a + digits > 0
  {
    hide DigitRun, FractionLen, ExponentLen, ExponentSign, NumberOf;
    if a == 0 { FirstDigit(s); }
    assert ParseNumber(s) == NumberParts(s, a, digits, fraction, exponent);
  }

  // A key with its colon.
  function KeyOf(s: string): Result<(string, string), Error> {
    var t := SkipBlank(s);
    if t == "" || t[0] != '\"' then Err(KeyExpected)
    else
      match ParseString(t[1..], "")
      case Err(e) => Err(e)
      case Ok((key, rest)) =>
        var c := SkipBlank(rest);
        if c == "" || c[0] != ':' then Err(ColonExpected) else Ok((key, c[1..]))
  }

  // The value of a member, and what comes after it.
  function AfterKey(key: string, s: string, depth: nat, members: Members): Result<(Value, string), Error> {
    match ParseOne(s, depth + 1)
    case Err(e) => Err(e)
    case Ok((v, rest)) =>
      var u := SkipBlank(rest);
      var more := M.Put(members, key, v);
      if u == "" then Err(UnterminatedObject)
      else if u[0] == '}' then Ok((Object(more), u[1..]))
      else if u[0] != ',' then Err(ObjectSeparator)
      else ParseMembers(u[1..], depth, more)
  }

  lemma MembersByKey(s: string, depth: nat, members: Members)
    ensures KeyOf(s).Err? ==> ParseMembers(s, depth, members) == Err(KeyOf(s).error)
    ensures KeyOf(s).Ok? ==> ParseMembers(s, depth, members) == AfterKey(KeyOf(s).value.0, KeyOf(s).value.1, depth, members)
  {
    hide SkipBlank, ParseString, ParseOne, M.Put;
  }

  class Parser {
    const data: string
    var pos: nat

    ghost predicate Valid()
      reads this
    {
      pos <= |data|
    }

    ghost function Left(): string
      reads this
      requires Valid()
    {
      data[pos..]
    }

    constructor (input: string)
      ensures Valid() && data == input && pos == 0
    {
      data, pos := input, 0;
    }

    method SkipWs()
      requires Valid()
      modifies this
      ensures Valid() && old(pos) <= pos && Left() == SkipBlank(old(Left()))
    {
      while pos < |data| && Blank(data[pos])
        invariant Valid() && old(pos) <= pos && SkipBlank(Left()) == SkipBlank(old(Left()))
        decreases |data| - pos
      {
        assert Left()[1..] == data[pos + 1..];
        pos := pos + 1;
      }
    }

    method ExpectWord(word: string, v: Value) returns (r: Result<Value, Error>)
      requires Valid()
      modifies this
      ensures Valid() && old(pos) <= pos && Agrees(r, Expect(old(Left()), word, v), Left())
    {
      assert pos + |word| <= |data| ==> Left()[..|word|] == data[pos..pos + |word|];
      if pos + |word| > |data| || data[pos..pos + |word|] != word {
        return Err(Expected);
      }
      assert Left()[|word|..] == data[pos + |word|..];
      pos := pos + |word|;
      return Ok(v);
    }

    // Called on the u of an escape.
    method ReadUnit() returns (r: Result<char, Error>)
      requires Valid() && pos < |data|
      modifies this
      ensures Valid() && old(pos) < pos && Agrees(r, ParseUnit(data[old(pos) + 1..]), Left())
    {
      pos := pos + 1;
      ghost var s := Left();
      if pos + 4 > |data| {
        return Err(TruncatedUnicode);
      }
      assert data[pos..pos + 4] == s[..4];
      var code := Unit(data[pos..pos + 4]);
      if code.None? {
        return Err(InvalidUnicode);
      }
      pos := pos + 4;
      assert s[4..] == Left();
      if 0xD800 <= code.value <= 0xDBFF {
        if pos + 6 <= |data| && data[pos] == '\\' && data[pos + 1] == 'u' {
          pos := pos + 2;
          assert data[pos..pos + 4] == s[6..10];
          var low := Unit(data[pos..pos + 4]);
          if low.None? {
            return Err(InvalidUnicode);
          }
          if !(0xDC00 <= low.value <= 0xDFFF) {
            return Err(LoneSurrogate);
          }
          pos := pos + 4;
          assert s[10..] == Left();
          return Ok((0x1_0000 + (code.value - 0xD800) * 0x400 + (low.value - 0xDC00)) as char);
        }
        return Err(LoneSurrogate);
      }
      if 0xDC00 <= code.value <= 0xDFFF {
        return Err(LoneSurrogate);
      }
      return Ok(code.value as char);
    }

    // Called on an opening quote.
    method ReadString() returns (r: Result<string, Error>)
      requires Valid() && pos < |data|
      modifies this
      ensures Valid() && old(pos) < pos && Agrees(r, ParseString(data[old(pos) + 1..], ""), Left())
    {
      hide ParseUnit;
      pos := pos + 1;
      var result := "";
      while pos < |data|
        invariant Valid() && old(pos) < pos
        invariant ParseString(data[old(pos) + 1..], "") == ParseString(Left(), result)
        decreases |data| - pos
      {
        var c := data[pos];
        ghost var s := Left();
        assert s[1..] == data[pos + 1..];
        if c == '\"' {
          pos := pos + 1;
          return Ok(result);
        } else if c == '\\' {
          pos := pos + 1;
          if pos >= |data| {
            return Err(UnterminatedEscape);
          }
          var d := data[pos];
          assert s[1..][1..] == data[pos + 1..];
          if d == 'u' {
            var unit := ReadUnit();
            if unit.Err? {
              return Err(unit.error);
            }
            result := result + [unit.value];
          } else {
            if d == '\"' || d == '\\' || d == '/' { result := result + [d]; }
            else if d == 'b' { result := result + [0x08 as char]; }
            else if d == 'f' { result := result + [0x0C as char]; }
            else if d == 'n' { result := result + "\n"; }
            else if d == 'r' { result := result + "\r"; }
            else if d == 't' { result := result + "\t"; }
            else { result := result + ['\\', d]; }
            pos := pos + 1;
          }
        } else {
          result := result + [c];
          pos := pos + 1;
        }
      }
      return Err(UnterminatedString);
    }

    method SkipDigits()
      requires Valid()
      modifies this
      ensures Valid() && pos == old(pos) + DigitRun(old(Left()))
    {
      while pos < |data| && D.IsDigit(data[pos])
        invariant Valid() && old(pos) <= pos
        invariant pos + DigitRun(Left()) == old(pos) + DigitRun(old(Left()))
        decreases |data| - pos
      {
        assert Left()[1..] == data[pos + 1..];
        pos := pos + 1;
      }
    }

    method SkipFraction()
      requires Valid()
      modifies this
      ensures Valid() && pos == old(pos) + FractionLen(old(Left()))
    {
      if pos < |data| && data[pos] == '.' {
        assert Left()[1..] == data[pos + 1..];
        pos := pos + 1;
        SkipDigits();
      }
    }

    method SkipExponent() returns (sign: nat)
      requires Valid()
      modifies this
      ensures Valid() && pos == old(pos) + ExponentLen(old(Left())) && sign == ExponentSign(old(Left()))
    {
      ghost var s := Left();
      sign := 0;
      if pos < |data| && (data[pos] == 'e' || data[pos] == 'E') {
        pos := pos + 1;
        sign := 1;
        if pos < |data| && (data[pos] == '+' || data[pos] == '-') {
          pos := pos + 1;
          sign := 2;
        }
        assert s[sign..] == Left();
        SkipDigits();
      }
    }

    // Called on a minus sign or a digit.
    method ReadNumber() returns (r: Result<Number, Error>)
      requires Valid() && pos < |data| && (data[pos] == '-' || D.IsDigit(data[pos]))
      modifies this
      ensures Valid() && old(pos) < pos && Agrees(r, ParseNumber(old(Left())), Left())
    {
      hide DigitRun, NumberOf, FractionLen, ExponentLen, ExponentSign, ParseNumber, Agrees;
      var start := pos;
      ghost var s := Left();
      if data[pos] == '-' {
        pos := pos + 1;
      }
      var digits := pos;
      Drops(data, start, digits);
      SkipDigits();
      var whole := pos;
      Drops(data, start, whole);
      SkipFraction();
      var fraction := pos;
      Drops(data, start, fraction);
      var sign := SkipExponent();
      var text := data[start..pos];
      Drops(data, start, pos);
      NumberAgrees(s, digits - start, whole - digits, fraction - whole, pos - fraction);
      r := NumberOf(text, whole - digits, fraction - whole, sign, pos - fraction);
    }

    method ReadOne(depth: nat) returns (r: Result<Value, Error>)
      requires Valid()
      modifies this
      ensures Valid() && old(pos) <= pos && Agrees(r, ParseOne(old(Left()), depth), Left())
      ensures r.Ok? ==> old(pos) < pos
      decreases |data| - pos, 1
    {
      hide SkipBlank, ParseItems, ParseMembers, ParseString, ParseNumber;
      if depth > MAX_DEPTH {
        return Err(TooDeep);
      }
      SkipWs();
      if pos >= |data| {
        return Err(UnexpectedEnd);
      }
      var c := data[pos];
      ghost var t := Left();
      assert t[1..] == data[pos + 1..];
      if c == 'n' {
        r := ExpectWord("null", Null);
      } else if c == 't' {
        r := ExpectWord("true", Bool(true));
      } else if c == 'f' {
        r := ExpectWord("false", Bool(false));
      } else if c == '\"' {
        var text := ReadString();
        r := if text.Ok? then Ok(Str(text.value)) else Err(text.error);
      } else if c == '[' {
        r := ReadArray(depth);
      } else if c == '{' {
        r := ReadObject(depth);
      } else if c == '-' || D.IsDigit(c) {
        var n := ReadNumber();
        r := if n.Ok? then Ok(Num(n.value)) else Err(n.error);
      } else {
        r := Err(UnexpectedChar);
      }
    }

    // Called on an opening bracket.
    method ReadArray(depth: nat) returns (r: Result<Value, Error>)
      requires Valid() && pos < |data|
      modifies this
      ensures Valid() && old(pos) < pos && Agrees(r, AfterBracket(data[old(pos) + 1..], depth), Left())
      decreases |data| - pos, 0
    {
      hide SkipBlank, ParseOne;
      pos := pos + 1;
      SkipWs();
      var items: seq<Value> := [];
      ghost var u := Left();
      if pos < |data| && data[pos] == ']' {
        assert u[1..] == data[pos + 1..];
        pos := pos + 1;
        return Ok(Array(items));
      }
      while true
        invariant Valid() && old(pos) < pos
        invariant ParseItems(u, depth, []) == ParseItems(Left(), depth, items)
        decreases |data| - pos
      {
        var item := ReadOne(depth + 1);
        if item.Err? {
          return Err(item.error);
        }
        items := items + [item.value];
        SkipWs();
        if pos >= |data| {
          return Err(UnterminatedArray);
        }
        assert Left()[1..] == data[pos + 1..];
        if data[pos] == ']' {
          pos := pos + 1;
          return Ok(Array(items));
        }
        if data[pos] != ',' {
          return Err(ArraySeparator);
        }
        pos := pos + 1;
      }
    }

    // A key and the colon after it.
    method ReadKey() returns (r: Result<string, Error>)
      requires Valid()
      modifies this
      ensures Valid() && old(pos) <= pos && Agrees(r, KeyOf(old(Left())), Left())
      ensures r.Ok? ==> old(pos) < pos
    {
      hide SkipBlank, ParseString;
      SkipWs();
      if pos >= |data| || data[pos] != '\"' {
        return Err(KeyExpected);
      }
      assert Left()[1..] == data[pos + 1..];
      var key := ReadString();
      if key.Err? {
        return Err(key.error);
      }
      SkipWs();
      if pos >= |data| || data[pos] != ':' {
        return Err(ColonExpected);
      }
      assert Left()[1..] == data[pos + 1..];
      pos := pos + 1;
      return key;
    }

    // Called on an opening brace; members are collected in an insertion-ordered map.
    method ReadObject(depth: nat) returns (r: Result<Value, Error>)
      requires Valid() && pos < |data|
      modifies this
      ensures Valid() && old(pos) < pos && Agrees(r, AfterBrace(data[old(pos) + 1..], depth), Left())
      decreases |data| - pos, 0
    {
      hide SkipBlank, ParseOne, ParseMembers, KeyOf, M.Put, M.Distinct;
      pos := pos + 1;
      SkipWs();
      var members := new M.OrderedMap<string, Value>();
      ghost var u := Left();
      if pos < |data| && data[pos] == '}' {
        assert u[1..] == data[pos + 1..];
        pos := pos + 1;
        return Ok(Object(members.entries));
      }
      while true
        invariant Valid() && old(pos) < pos && fresh(members) && members.Valid()
        invariant ParseMembers(u, depth, []) == ParseMembers(Left(), depth, members.entries)
        decreases |data| - pos
      {
        MembersByKey(Left(), depth, members.entries);
        var key := ReadKey();
        if key.Err? {
          return Err(key.error);
        }
        var v := ReadOne(depth + 1);
        if v.Err? {
          return Err(v.error);
        }
        var before := members.Insert(key.value, v.value);
        SkipWs();
        if pos >= |data| {
          return Err(UnterminatedObject);
        }
        assert Left()[1..] == data[pos + 1..];
        if data[pos] == '}' {
          pos := pos + 1;
          return Ok(Object(members.entries));
        }
        if data[pos] != ',' {
          return Err(ObjectSeparator);
        }
        pos := pos + 1;
      }
    }
  }

  // The whole input must be one value.
  method Parse(input: string) returns (r: Result<Value, Error>)
    ensures r == ParseValue(input)
  {
    var trimmed := Trim(input);
    if trimmed == "" {
      return Err(Empty);
    }
    var p := new Parser(trimmed);
    assert p.Left() == trimmed;
    var v := p.ReadOne(0);
    if v.Err? {
      return v;
    }
    p.SkipWs();
    if p.pos < |p.data| {
      return Err(Trailing);
    }
    return v;
  }
}
