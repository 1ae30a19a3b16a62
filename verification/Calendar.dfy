// Conversion between day numbers and dates of the proleptic Gregorian calendar:
// src/util.rs (twice) and build.rs.
module Calendar {

  datatype Date = Date(year: int, month: int, day: int)

  // ---------------------------------------------------------------- the calendar itself

  // The leap rule of appendix C of RFC 3339.
  predicate Leap(year: int) {
    year % 4 == 0 && (year % 100 != 0 || year % 400 == 0)
  }

  function DaysIn(year: int, month: int): int
    requires 1 <= month <= 12
  {
    if month == 2 then if Leap(year) then 29 else 28
    else if month == 4 || month == 6 || month == 9 || month == 11 then 30
    else 31
  }

  predicate Valid(t: Date) {
    1 <= t.month <= 12 && 1 <= t.day <= DaysIn(t.year, t.month)
  }

  function Next(t: Date): Date
    requires Valid(t)
  {
    if t.day < DaysIn(t.year, t.month) then Date(t.year, t.month, t.day + 1)
    else if t.month < 12 then Date(t.year, t.month + 1, 1)
    else Date(t.year + 1, 1, 1)
  }

  // ---------------------------------------------------------------- the conversions

  // Division that truncates toward zero.
  function Quotient(a: int, b: int): int
    requires b > 0
  {
    if a >= 0 then a / b else -((-a) / b)
  }

  function YearOfEra(doe: int): int {
    (doe - doe / 1460 + doe / 36524 - doe / 146096) / 365
  }

  // The date of a day of an era of 400 years.
  function DateInEra(era: int, doe: int): Date {
    var yoe := YearOfEra(doe);
    var y := yoe + era * 400;
    var doy := doe - (365 * yoe + yoe / 4 - yoe / 100);
    var mp := (5 * doy + 2) / 153;
    var d := doy - (153 * mp + 2) / 5 + 1;
    var m := if mp < 10 then mp + 3 else mp - 9;
    Date(if m <= 2 then y + 1 else y, m, d)
  }

  function CivilFromDays(days: int): Date {
    var z := days + 719468;
    var era := Quotient(if z >= 0 then z else z - 146096, 146097);
    DateInEra(era, z - era * 146097)
  }

  function DaysFromCivil(t: Date): int {
    var y := if t.month <= 2 then t.year - 1 else t.year;
    var era := Quotient(if y >= 0 then y else y - 399, 400);
    var yoe := y - era * 400;
    var mAdj := if t.month <= 2 then t.month + 9 else t.month - 3;
    var doy := (153 * mAdj + 2) / 5 + t.day - 1;
    var doe := yoe * 365 + yoe / 4 - yoe / 100 + doy;
    era * 146097 + doe - 719468
  }

  // ---------------------------------------------------------------- years that start in March

  // Days before the first of March of year y.
  function Before(y: int): int {
    365 * y + y / 4 - y / 100 + y / 400
  }

  function MonthStart(mp: int): int {
    (153 * mp + 2) / 5
  }

  lemma FloorEra(z: int, n: int)
    requires n > 0
    ensures Quotient(if z >= 0 then z else z - (n - 1), n) == z / n
  {
    if z < 0 {
      var k := (-(z - (n - 1))) / n;
      var r := (-(z - (n - 1))) % n;
      assert z == n * (-k) + (n - 1 - r);
      Divided(n, -k, n - 1 - r);
    }
  }

  lemma Divided(n: int, q: int, r: int)
    requires 0 <= r < n
    ensures (n * q + r) / n == q && (n * q + r) % n == r
  {
    var z := n * q + r;
    assert n * (z / n - q) == r - z % n;
    Far(n, z / n - q);
  }

  lemma Far(n: int, k: int)
    requires n > 0
    ensures k > 0 ==> n * k >= n
    ensures k < 0 ==> n * k <= -n
  {
  }

  lemma EraBefore(y: int)
    ensures var era := y / 400; var yoe := y % 400; era * 146097 + yoe * 365 + yoe / 4 - yoe / 100 == Before(y)
  {
    var era, yoe := y / 400, y % 400;
    assert y / 4 == 100 * era + yoe / 4;
    assert y / 100 == 4 * era + yoe / 100;
  }

  // The day number of a date, in closed form.
  lemma DaysClosed(t: Date)
    ensures var y := if t.month <= 2 then t.year - 1 else t.year;
      var mp := if t.month <= 2 then t.month + 9 else t.month - 3;
      DaysFromCivil(t) == Before(y) + MonthStart(mp) + t.day - 1 - 719468
  {
    var y := if t.month <= 2 then t.year - 1 else t.year;
    FloorEra(y, 400);
    EraBefore(y);
  }

  // A day of an era as century, four-year group, year and day of the year.
  predicate Parts(doe: int, c: int, q: int, r: int, s: int) {
    && 0 <= c <= 3 && 0 <= q <= 24 && 0 <= r <= 3 && 0 <= s <= 365
    && (s == 365 ==> r == 3 && (q < 24 || c == 3))
    && doe == 36524 * c + 1461 * q + 365 * r + s
  }

  lemma PartsExist(doe: int) returns (c: int, q: int, r: int, s: int)
    requires 0 <= doe < 146097
    ensures Parts(doe, c, q, r, s)
  {
    c := if doe == 146096 then 3 else doe / 36524;
    var d := doe - 36524 * c;
    q := d / 1461;
    var e := d - 1461 * q;
    r := if e == 1460 then 3 else e / 365;
    s := e - 365 * r;
  }

  lemma YearOfParts(doe: int, c: int, q: int, r: int, s: int)
    requires Parts(doe, c, q, r, s)
    ensures YearOfEra(doe) == 100 * c + 4 * q + r
  {
    var t := 24 * c + q + 365 * r + s;
    assert doe == 1460 * (25 * c + q) + t;
    var e := if t >= 1460 then 1 else 0;
    assert doe / 1460 == 25 * c + q + e;
    assert doe / 36524 - doe / 146096 == c;
    assert doe - doe / 1460 + doe / 36524 - doe / 146096 == 365 * (100 * c + 4 * q + r) + (s - e);
    assert 0 <= s - e < 365;
  }

  lemma LeapEnd(c: int, q: int)
    requires 0 <= c <= 3 && 0 <= q <= 24 && (q < 24 || c == 3)
    ensures Leap(100 * c + 4 * q + 4)
  {
    Divided(4, 25 * c + q + 1, 0);
    if q < 24 { Divided(100, c, 4 * q + 4); }
  }

  // The year of era, and the day of the year that starts in March.
  lemma YearFound(doe: int)
    requires 0 <= doe < 146097
    ensures 0 <= YearOfEra(doe) < 400
    ensures var y := YearOfEra(doe); var doy := doe - (365 * y + y / 4 - y / 100);
      0 <= doy <= 365 && (doy == 365 ==> Leap(y + 1))
  {
    hide YearOfEra, Leap;
    var c, q, r, s := PartsExist(doe);
    YearOfParts(doe, c, q, r, s);
    var y := 100 * c + 4 * q + r;
    Divided(4, 25 * c + q, r);
    Divided(100, c, 4 * q + r);
    assert doe - (365 * y + y / 4 - y / 100) == s;
    if s == 365 {
      LeapEnd(c, q);
      assert y + 1 == 100 * c + 4 * q + 4;
    }
  }

  // The month of a day of the year, and the day of the month.
  lemma MonthFound(doy: int)
    requires 0 <= doy <= 365
    ensures var mp := (5 * doy + 2) / 153;
      && 0 <= mp <= 11
      && MonthStart(mp) <= doy
      && (mp < 11 ==> doy < MonthStart(mp + 1))
  {
    var mp := (5 * doy + 2) / 153;
    assert 153 * mp <= 5 * doy + 2 < 153 * mp + 153;
  }

  // The parts of a date computed inside an era.
  lemma DateParts(era: int, doe: int) returns (y: int, mp: int, doy: int)
    requires 0 <= doe < 146097
    ensures 0 <= mp <= 11 && 0 <= doy <= 365 && MonthStart(mp) <= doy && (mp < 11 ==> doy < MonthStart(mp + 1))
    ensures DateInEra(era, doe) == Date(if mp < 10 then y else y + 1, if mp < 10 then mp + 3 else mp - 9, doy - MonthStart(mp) + 1)
    ensures Before(y) + doy == era * 146097 + doe
    ensures doy == 365 ==> Leap(y + 1)
  {
    hide YearOfEra, Leap, Before;
    var yoe := YearOfEra(doe);
    YearFound(doe);
    doy := doe - (365 * yoe + yoe / 4 - yoe / 100);
    MonthFound(doy);
    mp := (5 * doy + 2) / 153;
    y := yoe + era * 400;
    Divided(400, era, yoe);
    EraBefore(y);
    LeapShift(era, yoe + 1);
  }

  // Converting a day number gives a valid date, and converting it back gives the day number.
  lemma DaysRoundTrip(days: int)
    ensures Valid(CivilFromDays(days))
    ensures DaysFromCivil(CivilFromDays(days)) == days
  {
    hide DateInEra, Leap, Before, Quotient, DaysFromCivil, MonthStart;
    var z := days + 719468;
    FloorEra(z, 146097);
    var y, mp, doy := DateParts(z / 146097, z - z / 146097 * 146097);
    var t := CivilFromDays(days);
    DaysClosed(t);
    assert doy == 365 ==> mp == 11 by { LastMonth(mp, doy); }
    DayFits(t, mp, doy);
  }

  lemma LastMonth(mp: int, doy: int)
    requires 0 <= mp <= 11 && 0 <= doy <= 365 && MonthStart(mp) <= doy && (mp < 11 ==> doy < MonthStart(mp + 1))
    ensures doy == 365 ==> mp == 11
  {
  }

  lemma Divides(n: int, k: int, x: int)
    requires n > 0
    ensures (x + n * k) % n == x % n
  {
    Divided(n, x / n + k, x % n);
    assert x + n * k == n * (x / n + k) + x % n;
  }

  lemma LeapShift(era: int, yoe: int)
    ensures Leap(yoe + era * 400) == Leap(yoe)
  {
    Divides(400, era, yoe);
    Divides(100, 4 * era, yoe);
    Divides(4, 100 * era, yoe);
  }

  lemma DayFits(t: Date, mp: int, doy: int)
    requires 0 <= mp <= 11 && 0 <= doy <= 365 && MonthStart(mp) <= doy && (mp < 11 ==> doy < MonthStart(mp + 1))
    requires t.month == (if mp < 10 then mp + 3 else mp - 9) && t.day == doy - MonthStart(mp) + 1
    requires doy == 365 ==> Leap(t.year)
    ensures Valid(t)
  {
  }

  // ---------------------------------------------------------------- the other direction

  lemma OneMore(n: int, y: int)
    requires n > 1
    ensures (y + 1) / n == y / n + if (y + 1) % n == 0 then 1 else 0
  {
    if y % n == n - 1 {
      Divided(n, y / n + 1, 0);
      assert y + 1 == n * (y / n + 1) + 0;
    } else {
      Divided(n, y / n, y % n + 1);
      assert y + 1 == n * (y / n) + (y % n + 1);
    }
  }

  lemma Multiples(y: int)
    ensures y % 400 == 0 ==> y % 100 == 0
    ensures y % 100 == 0 ==> y % 4 == 0
  {
    if y % 400 == 0 { Divided(100, 4 * (y / 400), 0); assert y == 100 * (4 * (y / 400)); }
    if y % 100 == 0 { Divided(4, 25 * (y / 100), 0); assert y == 4 * (25 * (y / 100)); }
  }

  lemma BeforeNext(y: int)
    ensures Before(y + 1) == Before(y) + if Leap(y + 1) then 366 else 365
  {
    OneMore(4, y);
    OneMore(100, y);
    OneMore(400, y);
    Multiples(y + 1);
  }

  // Day numbers follow the calendar.
  lemma NextDay(t: Date)
    requires Valid(t)
    ensures Valid(Next(t)) && DaysFromCivil(Next(t)) == DaysFromCivil(t) + 1
  {
    hide Before, DaysFromCivil, Leap;
    DaysClosed(t);
    DaysClosed(Next(t));
    BeforeNext(t.year - 1);
  }

  lemma {:induction false} BeforeGrows(x: int, y: int)
    requires x <= y
    ensures Before(x) + 365 * (y - x) <= Before(y)
    decreases y - x
  {
    if x < y {
      BeforeGrows(x, y - 1);
      BeforeNext(y - 1);
    }
  }

  // Every valid date falls inside its own March-based year.
  lemma InYear(t: Date)
    requires Valid(t)
    ensures var y := if t.month <= 2 then t.year - 1 else t.year;
      Before(y) - 719468 <= DaysFromCivil(t) < Before(y + 1) - 719468
  {
    hide Before, DaysFromCivil, Leap;
    DaysClosed(t);
    BeforeNext(if t.month <= 2 then t.year - 1 else t.year);
  }

  lemma SameDate(s: Date, t: Date)
    requires Valid(s) && Valid(t) && DaysFromCivil(s) == DaysFromCivil(t)
    ensures s == t
  {
    hide Before, DaysFromCivil, Leap, DaysIn, MonthStart;
    var x := if s.month <= 2 then s.year - 1 else s.year;
    var y := if t.month <= 2 then t.year - 1 else t.year;
    InYear(s);
    InYear(t);
    if x < y { BeforeGrows(x + 1, y); } else if y < x { BeforeGrows(y + 1, x); }
    DaysClosed(s);
    DaysClosed(t);
    SameDay(s, t);
  }

  lemma SameDay(s: Date, t: Date)
    requires Valid(s) && Valid(t)
    requires (if s.month <= 2 then s.year - 1 else s.year) == (if t.month <= 2 then t.year - 1 else t.year)
    requires MonthStart(if s.month <= 2 then s.month + 9 else s.month - 3) + s.day
          == MonthStart(if t.month <= 2 then t.month + 9 else t.month - 3) + t.day
    ensures s == t
  {
  }

  lemma DateRoundTrip(t: Date)
    requires Valid(t)
    ensures CivilFromDays(DaysFromCivil(t)) == t
  {
    hide CivilFromDays, DaysFromCivil, Valid;
    var days := DaysFromCivil(t);
    DaysRoundTrip(days);
    SameDate(CivilFromDays(days), t);
  }

  // The next day number is the next date of the calendar.
  lemma Successor(days: int)
    ensures Valid(CivilFromDays(days))
    ensures CivilFromDays(days + 1) == Next(CivilFromDays(days))
  {
    hide CivilFromDays, DaysFromCivil, Valid, Next;
    var t := CivilFromDays(days);
    DaysRoundTrip(days);
    NextDay(t);
    DateRoundTrip(Next(t));
  }

  // ---------------------------------------------------------------- the copies

  // The copy used for certificates, with Euclidean division throughout.
  function DateOfTimestamp(days: int): Date {
    var z := days + 719468;
    var era := z / 146097;
    var doe := z % 146097;
    var yoe := YearOfEra(doe);
    var y := yoe + era * 400;
    var doy := doe - (365 * yoe + yoe / 4 - yoe / 100);
    var mp := (5 * doy + 2) / 153;
    var d := doy - (153 * mp + 2) / 5 + 1;
    var m := if mp < 10 then mp + 3 else mp - 9;
    Date(if m <= 2 then y + 1 else y, m, d)
  }

  // The copy of the build script, on unsigned numbers.
  function DaysToDate(days: nat): Date {
    var z := days + 719468;
    var era := z / 146097;
    var doe := z - era * 146097;
    var yoe := YearOfEra(doe);
    var y := yoe + era * 400;
    var doy := doe - (365 * yoe + yoe / 4 - yoe / 100);
    var mp := (5 * doy + 2) / 153;
    var d := doy - (153 * mp + 2) / 5 + 1;
    var m := if mp < 10 then mp + 3 else mp - 9;
    Date(if m <= 2 then y + 1 else y, m, d)
  }

  lemma TimestampFormula(days: int)
    ensures var z := days + 719468; DateOfTimestamp(days) == DateInEra(z / 146097, z % 146097)
  {
    hide YearOfEra;
  }

  lemma BuildFormula(days: nat)
    ensures var z := days + 719468; DaysToDate(days) == DateInEra(z / 146097, z - z / 146097 * 146097)
  {
    hide YearOfEra;
  }

  lemma CopiesAgree(days: int)
    ensures DateOfTimestamp(days) == CivilFromDays(days)
    ensures days >= 0 ==> DaysToDate(days) == CivilFromDays(days)
  {
    hide Quotient, DateInEra, DateOfTimestamp, DaysToDate;
    var z := days + 719468;
    FloorEra(z, 146097);
    assert z - z / 146097 * 146097 == z % 146097;
    TimestampFormula(days);
    if days >= 0 { BuildFormula(days); }
  }
}
