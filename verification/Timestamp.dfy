// Formatting and parsing of timestamps in milliseconds (src/util.rs), on ASCII text.
module Timestamp {
  import opened Wrappers
  import opened Calendar
  import opened Decimal

  datatype Error = InvalidYear | InvalidMonth | InvalidDay | InvalidDate | UnknownFormat | InvalidDateFormat
                 | InvalidHours | InvalidMinutes | InvalidTimeFormat | InvalidHour | InvalidMinute
                 | InvalidSeconds | InvalidFraction

  // ---------------------------------------------------------------- formatting

  // Zero padding counts the sign.
  function PaddedInt(n: int, width: nat): string
    requires width > 0
  {
    if n >= 0 then Padded(n, width) else "-" + Padded(-n, width - 1)
  }

  function DateText(t: Date): string
    requires Valid(t)
  {
    PaddedInt(t.year, 4) + "-" + (Padded(t.month, 2) + "-" + Padded(t.day, 2))
  }

  function TimeText(daySecs: nat, millis: nat): string {
    Padded(daySecs / 3600, 2) + ":" + (Padded(daySecs % 3600 / 60, 2) + ":" + (Padded(daySecs % 60, 2) + "." + Padded(millis, 3)))
  }

  function DateOf(ms: int): (t: Date)
    ensures Valid(t)
  {
    DaysRoundTrip(ms / 1000 / 86400);
    CivilFromDays(ms / 1000 / 86400)
  }

  function FormatMillis(ms: int): string {
    DateText(DateOf(ms)) + "T" + (TimeText(ms / 1000 % 86400, ms % 1000) + "Z")
  }

  // ---------------------------------------------------------------- parsing

  predicate White(c: char) {
    c == ' ' || '\t' <= c <= '\r'
  }

  function TrimStart(s: string): string {
    if s != "" && White(s[0]) then TrimStart(s[1..]) else s
  }

  function TrimEnd(s: string): string {
    if s != "" && White(s[|s| - 1]) then TrimEnd(s[..|s| - 1]) else s
  }

  function Find(s: string, c: char): (r: Option<nat>)
    ensures r.Some? ==> r.value < |s|
  {
    if s == "" then None
    else if s[0] == c then Some(0)
    else match Find(s[1..], c) case None => None case Some(i) => Some(i + 1)
  }

  function Split(s: string, c: char): (r: seq<string>)
    ensures r != []
  {
    match Find(s, c)
    case None => [s]
    case Some(i) => [s[..i]] + Split(s[i + 1..], c)
  }

  // The text before the zone, and the offset of the zone in seconds.
  function ParseZone(time: string): Result<(string, int), Error> {
    var n := |time| - 6;
    if time != "" && time[|time| - 1] == 'Z' then Ok((time[..|time| - 1], 0))
    else if n >= 0 && (time[n] == '+' || time[n] == '-') && time[n + 3] == ':' then
      match ParseI64(time[n + 1..n + 3])
      case None => Err(InvalidHours)
      case Some(hh) =>
        match ParseI64(time[n + 4..n + 6])
        case None => Err(InvalidMinutes)
        case Some(mm) => Ok((time[..n], (if time[n] == '+' then 1 else -1) * (hh * 3600 + mm * 60)))
    else Ok((time, 0))
  }

  function PadRight(s: string): string
    decreases 3 - |s|
  {
    if |s| >= 3 then s[..3] else PadRight(s + "0")
  }

  function ParseSeconds(s: string): Result<(nat, nat), Error> {
    match Find(s, '.')
    case Some(dot) => (
      match ParseU32(s[..dot])
      case None => Err(InvalidSeconds)
      case Some(sec) =>
        match ParseU32(PadRight(s[dot + 1..]))
        case None => Err(InvalidFraction)
        case Some(millis) => Ok((sec, millis)))
    case None =>
      match ParseU32(s)
      case None => Err(InvalidSeconds)
      case Some(sec) => Ok((sec, 0))
  }

  function ParseDate(y: string, m: string, d: string): Result<Date, Error> {
    match ParseI64(y)
    case None => Err(InvalidYear)
    case Some(year) =>
      match ParseU32(m)
      case None => Err(InvalidMonth)
      case Some(month) =>
        match ParseU32(d)
        case None => Err(InvalidDay)
        case Some(day) =>
          if month < 1 || month > 12 || day < 1 || day > 31 then Err(InvalidDate)
          else Ok(Date(year, month, day))
  }

  function ParseTime(time: string): Result<(int, nat), Error> {
    match ParseZone(time)
    case Err(e) => Err(e)
    case Ok((text, offset)) =>
      var parts := Split(text, ':');
      if |parts| < 2 then Err(InvalidTimeFormat)
      else
        match ParseU32(parts[0])
        case None => Err(InvalidHour)
        case Some(hour) =>
          match ParseU32(parts[1])
          case None => Err(InvalidMinute)
          case Some(min) =>
            match (if |parts| >= 3 then ParseSeconds(parts[2]) else Ok((0, 0)))
            case Err(e) => Err(e)
            case Ok((sec, millis)) => Ok((hour * 3600 + min * 60 + sec - offset, millis))
  }

  // Where the time starts: behind the first T, or else behind the first space.
  function TimeAt(s: string): (r: Option<nat>)
    ensures r.Some? ==> r.value < |s|
  {
    if Find(s, 'T').Some? then Find(s, 'T') else Find(s, ' ')
  }

  function Moment(date: string, time: string): Result<int, Error> {
    var parts := Split(date, '-');
    if |parts| != 3 then Err(InvalidDateFormat)
    else
      match ParseDate(parts[0], parts[1], parts[2])
      case Err(e) => Err(e)
      case Ok(t) =>
        match ParseTime(time)
        case Err(e) => Err(e)
        case Ok((secs, millis)) => Ok((DaysFromCivil(t) * 86400 + secs) * 1000 + millis)
  }

  function ParseMillis(text: string): Result<int, Error> {
    var s := TrimEnd(TrimStart(text));
    if |s| == 10 && s[4] == '-' && s[7] == '-' then
      match ParseDate(s[..4], s[5..7], s[8..10])
      case Err(e) => Err(e)
      case Ok(t) => Ok(DaysFromCivil(t) * 86400 * 1000)
    else
      match TimeAt(s)
      case None => Err(UnknownFormat)
      case Some(pos) => Moment(s[..pos], s[pos + 1..])
  }

  // ---------------------------------------------------------------- reading what was written

  lemma {:induction false} FindAfter(a: string, c: char, b: string)
    requires c !in a
    ensures Find(a + [c] + b, c) == Some(|a|)
  {
    var s := a + [c] + b;
    if a != "" {
      FindAfter(a[1..], c, b);
      assert s[1..] == a[1..] + [c] + b;
    }
  }

  lemma {:induction false} FindNone(a: string, c: char)
    requires c !in a
    ensures Find(a, c) == None
  {
    if a != "" { FindNone(a[1..], c); }
  }

  lemma SplitAfter(a: string, c: char, b: string)
    requires c !in a
    ensures Split(a + [c] + b, c) == [a] + Split(b, c)
  {
    FindAfter(a, c, b);
    assert (a + [c] + b)[..|a|] == a && (a + [c] + b)[|a| + 1..] == b;
  }

  lemma SplitNone(a: string, c: char)
    requires c !in a
    ensures Split(a, c) == [a]
  {
    FindNone(a, c);
  }

  lemma NotIn(s: string, c: char)
    requires AllDigits(s) && !IsDigit(c)
    ensures c !in s
  {
  }

  lemma PaddedRead(n: nat, width: nat)
    ensures n < U32 ==> ParseU32(Padded(n, width)) == Some(n)
    ensures n < I64 ==> ParseI64(Padded(n, width)) == Some(n)
  {
    hide Padded, Value;
    ValueOfPadded(n, width);
    assert IsDigit(Padded(n, width)[0]);
  }

  lemma SmallDigits(n: nat)
    ensures n < 10 ==> |Digits(n)| == 1
    ensures n < 100 ==> |Digits(n)| <= 2
    ensures n < 1000 ==> |Digits(n)| <= 3
  {
    assert n < 1000 ==> n / 10 < 100 && n / 10 / 10 < 10;
    if n >= 10 && n / 10 >= 10 { assert |Digits(n)| == |Digits(n / 10)| + 1 == |Digits(n / 10 / 10)| + 2; }
  }

  lemma SecondsRead(sec: nat, millis: nat)
    requires sec < 60 && millis < 1000
    ensures ParseSeconds(Padded(sec, 2) + "." + Padded(millis, 3)) == Ok((sec, millis))
  {
    hide Padded, ParseU32, Digits;
    var a, b := Padded(sec, 2), Padded(millis, 3);
    NotIn(a, '.');
    FindAfter(a, '.', b);
    assert a + "." + b == a + ['.'] + b;
    var s := a + "." + b;
    assert s[..|a|] == a && s[|a| + 1..] == b;
    PaddedRead(sec, 2);
    PaddedRead(millis, 3);
    SmallDigits(millis);
    PaddedWidth(millis, 3);
    assert b[..3] == b;
  }

  lemma TimeRead(daySecs: nat, millis: nat)
    requires daySecs < 86400 && millis < 1000
    ensures ParseTime(TimeText(daySecs, millis) + "Z") == Ok((daySecs, millis))
  {
    hide Padded, ParseU32, ParseSeconds, Split;
    var h, m, s := daySecs / 3600, daySecs % 3600 / 60, daySecs % 60;
    var tail := Padded(s, 2) + "." + Padded(millis, 3);
    var text := TimeText(daySecs, millis);
    assert (text + "Z")[..|text + "Z"| - 1] == text;
    assert text == Padded(h, 2) + [':'] + (Padded(m, 2) + ":" + tail);
    assert Padded(m, 2) + ":" + tail == Padded(m, 2) + [':'] + tail;
    NotIn(Padded(h, 2), ':');
    NotIn(Padded(m, 2), ':');
    NotIn(Padded(s, 2), ':');
    NotIn(Padded(millis, 3), ':');
    SplitAfter(Padded(h, 2), ':', Padded(m, 2) + ":" + tail);
    SplitAfter(Padded(m, 2), ':', tail);
    SplitNone(tail, ':');
    assert Split(text, ':') == [Padded(h, 2), Padded(m, 2), tail];
    PaddedRead(h, 2);
    PaddedRead(m, 2);
    SecondsRead(s, millis);
    assert h * 3600 + m * 60 + s == daySecs;
  }

  // A date of a year before year 0 starts with a minus sign and splits into four parts.
  lemma DateRead(t: Date)
    requires Valid(t) && t.year < I64
    ensures t.year >= 0 ==> Split(DateText(t), '-') == [Padded(t.year, 4), Padded(t.month, 2), Padded(t.day, 2)]
    ensures t.year < 0 ==> |Split(DateText(t), '-')| == 4
    ensures t.year >= 0 ==> ParseDate(Padded(t.year, 4), Padded(t.month, 2), Padded(t.day, 2)) == Ok(t)
  {
    hide Padded, ParseU32, ParseI64, Split;
    var m, d := Padded(t.month, 2), Padded(t.day, 2);
    NotIn(m, '-');
    NotIn(d, '-');
    SplitAfter(m, '-', d);
    SplitNone(d, '-');
    assert m + "-" + d == m + ['-'] + d;
    PaddedRead(t.month, 2);
    PaddedRead(t.day, 2);
    if t.year >= 0 {
      var y := Padded(t.year, 4);
      NotIn(y, '-');
      SplitAfter(y, '-', m + "-" + d);
      assert DateText(t) == y + ['-'] + (m + "-" + d);
      PaddedRead(t.year, 4);
    } else {
      var y := Padded(-t.year, 3);
      NotIn(y, '-');
      SplitAfter(y, '-', m + "-" + d);
      SplitAfter("", '-', y + ['-'] + (m + "-" + d));
      assert DateText(t) == "" + ['-'] + (y + ['-'] + (m + "-" + d));
    }
  }

  // A year is never larger than the day count it comes from.
  lemma YearBound(days: int)
    ensures CivilFromDays(days).year <= days + 719470 || CivilFromDays(days).year <= 1
  {
    var t := CivilFromDays(days);
    DaysRoundTrip(days);
    DaysClosed(t);
  }

  lemma NoTrim(s: string)
    requires s != "" && !White(s[0]) && !White(s[|s| - 1])
    ensures TrimEnd(TrimStart(s)) == s
  {
  }

  // Parsing a formatted timestamp gives it back exactly when its year is not negative.
  lemma TimestampRoundTrip(ms: int)
    requires -I64 <= ms < I64
    ensures ParseMillis(FormatMillis(ms)) == Ok(ms) <==> DateOf(ms).year >= 0
    ensures DateOf(ms).year < 0 ==> ParseMillis(FormatMillis(ms)) == Err(InvalidDateFormat)
  {
    hide DateText, TimeText, ParseDate, ParseTime, Find, Split, TrimEnd, TrimStart, DaysFromCivil, CivilFromDays;
    var days, daySecs, millis := ms / 1000 / 86400, ms / 1000 % 86400, ms % 1000;
    var t := DateOf(ms);
    var date, time := DateText(t), TimeText(daySecs, millis) + "Z";
    var s := FormatMillis(ms);
    YearBound(days);
    DateRead(t);
    TimeRead(daySecs, millis);
    Shape(t, daySecs, millis);
    NoTrim(s);
    FindAfter(date, 'T', time);
    assert s == date + ['T'] + time;
    assert s[..|date|] == date && s[|date| + 1..] == time;
    DaysRoundTrip(days);
    assert (days * 86400 + daySecs) * 1000 + millis == ms;
  }

  lemma Shape(t: Date, daySecs: nat, millis: nat)
    requires Valid(t)
    ensures var date := DateText(t); |date| >= 10 && 'T' !in date && !White(date[0])
  {
    hide Padded;
    NotIn(Padded(t.month, 2), 'T');
    NotIn(Padded(t.day, 2), 'T');
    if t.year >= 0 {
      NotIn(Padded(t.year, 4), 'T');
      assert IsDigit(Padded(t.year, 4)[0]);
    } else {
      NotIn(Padded(-t.year, 3), 'T');
    }
  }

  // ---------------------------------------------------------------- zones

  function ZoneText(ahead: bool, hh: nat, mm: nat): string {
    (if ahead then "+" else "-") + (Padded(hh, 2) + (":" + Padded(mm, 2)))
  }

  // No zone at the end of a time.
  predicate Unzoned(time: string) {
    && (time != "" ==> time[|time| - 1] != 'Z')
    && (|time| >= 6 ==> !((time[|time| - 6] == '+' || time[|time| - 6] == '-') && time[|time| - 3] == ':'))
  }

  function Ahead(ahead: bool, hh: nat, mm: nat): int {
    if ahead then hh * 3600 + mm * 60 else -(hh * 3600 + mm * 60)
  }

  lemma ZoneParts(time: string, ahead: bool, hh: nat, mm: nat)
    requires hh < 100 && mm < 100
    ensures var s, n := time + ZoneText(ahead, hh, mm), |time|;
      && |s| == n + 6 && s[..n] == time && s[n] == (if ahead then '+' else '-') && s[n + 3] == ':'
      && s[n + 1..n + 3] == Padded(hh, 2) && s[n + 4..n + 6] == Padded(mm, 2) && IsDigit(s[n + 5])
  {
    hide Padded;
    SmallDigits(hh);
    SmallDigits(mm);
    PaddedWidth(hh, 2);
    PaddedWidth(mm, 2);
    assert IsDigit(Padded(mm, 2)[1]);
  }

  // A clock `hh:mm` ahead shows a time that much later than the same instant in UTC; a final Z changes nothing.
  lemma ZoneRead(time: string, ahead: bool, hh: nat, mm: nat)
    requires Unzoned(time) && hh < 100 && mm < 100
    ensures ParseTime(time + ZoneText(ahead, hh, mm)) ==
      match ParseTime(time)
      case Err(e) => Err(e)
      case Ok((secs, millis)) => Ok((secs - Ahead(ahead, hh, mm), millis))
    ensures ParseTime(time + "Z") == ParseTime(time)
  {
    hide Padded, Split, ParseU32, ParseI64, ParseSeconds, ZoneText;
    ZoneParts(time, ahead, hh, mm);
    PaddedRead(hh, 2);
    PaddedRead(mm, 2);
    assert ParseZone(time + ZoneText(ahead, hh, mm)) == Ok((time, Ahead(ahead, hh, mm)));
    assert (time + "Z")[..|time + "Z"| - 1] == time;
    assert ParseZone(time + "Z") == Ok((time, 0)) && ParseZone(time) == Ok((time, 0));
  }

  lemma {:induction false} FindKeeps(s: string, more: string, c: char)
    requires c !in more
    ensures Find(s + more, c) == Find(s, c)
  {
    if s == "" {
      assert s + more == more;
      FindNone(more, c);
    } else {
      assert (s + more)[1..] == s[1..] + more;
      FindKeeps(s[1..], more, c);
    }
  }

  predicate DateOnly(s: string) {
    |s| == 10 && s[4] == '-' && s[7] == '-'
  }

  // A date and time with an offset are the instant of the same text without it, less the offset.
  lemma OffsetShifts(s: string, ahead: bool, hh: nat, mm: nat)
    requires s != "" && !White(s[0]) && !White(s[|s| - 1]) && !DateOnly(s) && hh < 100 && mm < 100
    requires TimeAt(s).Some? && Unzoned(s[TimeAt(s).value + 1..])
    ensures ParseMillis(s + ZoneText(ahead, hh, mm)) ==
      match ParseMillis(s)
      case Err(e) => Err(e)
      case Ok(ms) => Ok(ms - Ahead(ahead, hh, mm) * 1000)
  {
    hide Padded, Split, ParseTime, ParseDate, Find, TrimStart, TrimEnd, DaysFromCivil, ZoneText, ParseMillis, Moment, Unzoned, Ahead;
    var zone := ZoneText(ahead, hh, mm);
    var t, pos := s + zone, TimeAt(s).value;
    ZoneParts(s, ahead, hh, mm);
    ZoneLetters(ahead, hh, mm);
    FindKeeps(s, zone, 'T');
    FindKeeps(s, zone, ' ');
    MillisSplit(s, pos);
    MillisSplit(t, pos);
    assert t[..pos] == s[..pos] && t[pos + 1..] == s[pos + 1..] + zone;
    MomentShifts(s[..pos], s[pos + 1..], ahead, hh, mm);
  }

  lemma MillisSplit(s: string, pos: nat)
    requires s != "" && !White(s[0]) && !White(s[|s| - 1]) && !DateOnly(s) && TimeAt(s) == Some(pos)
    ensures ParseMillis(s) == Moment(s[..pos], s[pos + 1..])
  {
    hide Moment, Find, TimeAt;
    NoTrim(s);
    hide TrimStart, TrimEnd;
  }

  lemma MomentShifts(date: string, time: string, ahead: bool, hh: nat, mm: nat)
    requires Unzoned(time) && hh < 100 && mm < 100
    ensures Moment(date, time + ZoneText(ahead, hh, mm)) ==
      match Moment(date, time)
      case Err(e) => Err(e)
      case Ok(ms) => Ok(ms - Ahead(ahead, hh, mm) * 1000)
  {
    hide Split, ParseTime, ParseDate, DaysFromCivil, ZoneText, Unzoned, Ahead;
    ZoneRead(time, ahead, hh, mm);
  }

  lemma ZoneLetters(ahead: bool, hh: nat, mm: nat)
    ensures var zone := ZoneText(ahead, hh, mm); 'T' !in zone && ' ' !in zone
  {
    hide Padded;
    NotIn(Padded(hh, 2), 'T');
    NotIn(Padded(mm, 2), 'T');
    NotIn(Padded(hh, 2), ' ');
    NotIn(Padded(mm, 2), ' ');
  }

  // ---------------------------------------------------------------- other forms

  // A date alone is midnight in UTC.
  lemma DateAlone(t: Date)
    requires Valid(t) && 0 <= t.year < 10000
    ensures ParseMillis(DateText(t)) == Ok(DaysFromCivil(t) * 86400 * 1000)
  {
    hide Padded, ParseU32, ParseI64, DaysFromCivil, Split, ParseDate, Digits;
    var y, m, d := Padded(t.year, 4), Padded(t.month, 2), Padded(t.day, 2);
    FourDigits(t.year);
    SmallDigits(t.month);
    SmallDigits(t.day);
    PaddedWidth(t.year, 4);
    PaddedWidth(t.month, 2);
    PaddedWidth(t.day, 2);
    var s := DateText(t);
    assert s == y + ['-'] + m + ['-'] + d;
    assert s[..4] == y && s[5..7] == m && s[8..10] == d && IsDigit(y[0]) && s[9] == d[1] && IsDigit(d[1]);
    NoTrim(s);
    DateRead(t);
  }

  lemma FourDigits(n: nat)
    requires n < 10000
    ensures |Digits(n)| <= 4
  {
    SmallDigits(n / 10);
  }

  // Of a fraction of a second the first three digits count, as thousandths.
  lemma FractionRead(sec: nat, fraction: string)
    requires sec < 60 && fraction != "" && AllDigits(fraction)
    ensures ParseSeconds(Padded(sec, 2) + "." + fraction) == Ok((sec,
      if |fraction| == 1 then Value(fraction) * 100 else if |fraction| == 2 then Value(fraction) * 10 else Value(fraction[..3])))
  {
    hide Padded, ParseU32, Digits, Value;
    var a := Padded(sec, 2);
    NotIn(a, '.');
    FindAfter(a, '.', fraction);
    var s := a + "." + fraction;
    assert s == a + ['.'] + fraction && s[..|a|] == a && s[|a| + 1..] == fraction;
    PaddedRead(sec, 2);
    PadValue(fraction);
  }

  lemma ZeroAdded(s: string)
    requires AllDigits(s)
    ensures AllDigits(s + "0") && Value(s + "0") == Value(s) * 10
  {
    assert (s + "0")[..|s|] == s;
  }

  function ThreeDigits(s: string): string {
    if |s| == 1 then s + "0" + "0" else if |s| == 2 then s + "0" else s
  }

  lemma PadRightIs(s: string)
    requires s != ""
    ensures PadRight(s) == if |s| < 3 then ThreeDigits(s) else s[..3]
  {
    assert |s| == 1 ==> (s + "0" + "0")[..3] == s + "0" + "0";
    assert |s| == 2 ==> (s + "0")[..3] == s + "0";
  }

  lemma ThreeRead(s: string)
    requires |s| == 3 && AllDigits(s)
    ensures ParseU32(s) == Some(Value(s))
  {
    assert Value(s) == Value(s[..2]) * 10 + DigitValue(s[2]);
    assert s[..2][..1] == s[..1] && s[..1][..0] == "";
    assert Value(s[..2]) == Value(s[..1]) * 10 + DigitValue(s[1]);
    assert Value(s[..1]) == Value("") * 10 + DigitValue(s[0]);
    assert Value(s) < 1000 && IsDigit(s[0]);
    hide Value;
  }

  lemma PadValue(s: string)
    requires s != "" && AllDigits(s)
    ensures ParseU32(PadRight(s)) == Some(
      if |s| == 1 then Value(s) * 100 else if |s| == 2 then Value(s) * 10 else Value(s[..3]))
  {
    hide Value, PadRight, ParseU32;
    ZeroAdded(s);
    ZeroAdded(s + "0");
    PadRightIs(s);
    ThreeRead(if |s| < 3 then ThreeDigits(s) else s[..3]);
  }

  // A time may leave out its seconds.
  lemma MinutesRead(h: nat, m: nat)
    requires h < 24 && m < 60
    ensures ParseTime(Padded(h, 2) + ":" + Padded(m, 2)) == Ok((h * 3600 + m * 60, 0))
  {
    hide Padded, ParseU32, Digits;
    var a, b := Padded(h, 2), Padded(m, 2);
    var s := a + ":" + b;
    SmallDigits(h);
    SmallDigits(m);
    PaddedWidth(h, 2);
    PaddedWidth(m, 2);
    assert |s| == 5 && s[4] == b[1] && IsDigit(b[1]);
    NotIn(a, ':');
    NotIn(b, ':');
    assert s == a + [':'] + b;
    SplitAfter(a, ':', b);
    SplitNone(b, ':');
    PaddedRead(h, 2);
    PaddedRead(m, 2);
  }

  // A space may stand for the T.
  lemma SpaceRead(date: string, time: string)
    requires date != "" && !White(date[0]) && time != "" && !White(time[|time| - 1])
    requires 'T' !in date && ' ' !in date && 'T' !in time && !DateOnly(date + "T" + time) && !DateOnly(date + " " + time)
    ensures ParseMillis(date + " " + time) == ParseMillis(date + "T" + time)
  {
    hide Split, ParseTime, ParseDate, DaysFromCivil;
    var s, t := date + " " + time, date + "T" + time;
    NoTrim(s);
    NoTrim(t);
    assert s == date + [' '] + time && t == date + ['T'] + time;
    FindAfter(date, ' ', time);
    FindAfter(date, 'T', time);
    FindNone(s, 'T');
    assert s[..|date|] == date == t[..|date|] && s[|date| + 1..] == time == t[|date| + 1..];
  }
}
