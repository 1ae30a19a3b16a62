// The CSV reader and writer of src/util.rs.
module Csv {

  const QUOTE := '\"'

  type Row = seq<string>

  datatype CsvData = CsvData(headers: Row, records: seq<Row>)

  // ---------------------------------------------------------------- writing

  function Doubled(s: string): string {
    if s == "" then ""
    else (if s[0] == QUOTE then [QUOTE, QUOTE] else [s[0]]) + Doubled(s[1..])
  }

  predicate NeedsQuotes(field: string) {
    ',' in field || QUOTE in field || '\n' in field || '\r' in field
  }

  function Escape(field: string): string {
    if NeedsQuotes(field) then [QUOTE] + Doubled(field) + [QUOTE] else field
  }

  function RowText(row: Row): string {
    if row == [] then ""
    else if |row| == 1 then Escape(row[0])
    else Escape(row[0]) + "," + RowText(row[1..])
  }

  function RowsText(rows: seq<Row>): string {
    if rows == [] then "" else RowText(rows[0]) + "\n" + RowsText(rows[1..])
  }

  method Write(headers: Row, rows: seq<Row>) returns (output: string)
    ensures output == RowsText([headers] + rows)
  {
    hide RowText;
    output := RowText(headers) + "\n";
    for i := 0 to |rows|
      invariant output + RowsText(rows[i..]) == RowsText([headers] + rows)
    {
      assert rows[i..][0] == rows[i] && rows[i..][1..] == rows[i + 1..];
      output := output + RowText(rows[i]) + "\n";
    }
  }

  // ---------------------------------------------------------------- reading

  // The fields of the rest of a line, given the field read so far.
  function Fields(s: string, current: string, quoted: bool): (r: Row)
    ensures r != []
  {
    if s == "" then [current]
    else if quoted then
      if s[0] != QUOTE then Fields(s[1..], current + [s[0]], true)
      else if |s| > 1 && s[1] == QUOTE then Fields(s[2..], current + [QUOTE], true)
      else Fields(s[1..], current, false)
    else if s[0] == QUOTE then Fields(s[1..], current, true)
    else if s[0] == ',' then [current] + Fields(s[1..], "", false)
    else Fields(s[1..], current + [s[0]], false)
  }

  // A line without its carriage return; an empty one is dropped.
  function Finished(current: string): seq<string> {
    var trimmed := if current != "" && current[|current| - 1] == '\r' then current[..|current| - 1] else current;
    if trimmed == "" then [] else [trimmed]
  }

  // The lines of the rest of a text, given the line read so far.
  function Lines(s: string, current: string, quoted: bool): seq<string> {
    if s == "" then Finished(current)
    else if s[0] == QUOTE then Lines(s[1..], current + [QUOTE], !quoted)
    else if s[0] == '\n' && !quoted then Finished(current) + Lines(s[1..], "", false)
    else Lines(s[1..], current + [s[0]], quoted)
  }

  method ParseLine(line: string) returns (fields: Row)
    ensures fields == Fields(line, "", false)
  {
    fields := [];
    var current := "";
    var inQuotes := false;
    var i := 0;
    while i < |line|
      invariant 0 <= i <= |line|
      invariant fields + Fields(line[i..], current, inQuotes) == Fields(line, "", false)
    {
      var c := line[i];
      assert line[i..][1..] == line[i + 1..];
      assert i + 1 < |line| ==> line[i..][2..] == line[i + 2..];
      i := i + 1;
      if inQuotes {
        if c == QUOTE {
          if i < |line| && line[i] == QUOTE {
            i := i + 1;
            current := current + [QUOTE];
          } else {
            inQuotes := false;
          }
        } else {
          current := current + [c];
        }
      } else if c == QUOTE {
        inQuotes := true;
      } else if c == ',' {
        fields := fields + [current];
        current := "";
      } else {
        current := current + [c];
      }
    }
    fields := fields + [current];
  }

  method SplitLines(text: string) returns (lines: seq<string>)
    ensures lines == Lines(text, "", false)
  {
    lines := [];
    var current := "";
    var inQuotes := false;
    for i := 0 to |text|
      invariant lines + Lines(text[i..], current, inQuotes) == Lines(text, "", false)
    {
      var c := text[i];
      assert text[i..][1..] == text[i + 1..];
      if c == QUOTE {
        inQuotes := !inQuotes;
        current := current + [c];
      } else if c == '\n' && !inQuotes {
        var trimmed := if current != "" && current[|current| - 1] == '\r' then current[..|current| - 1] else current;
        if trimmed != "" {
          lines := lines + [trimmed];
        }
        current := "";
      } else {
        current := current + [c];
      }
    }
    if current != "" {
      var trimmed := if current[|current| - 1] == '\r' then current[..|current| - 1] else current;
      if trimmed != "" {
        lines := lines + [trimmed];
      }
    }
  }

  function Records(lines: seq<string>): (r: seq<Row>)
    ensures |r| == |lines|
  {
    if lines == [] then [] else [Fields(lines[0], "", false)] + Records(lines[1..])
  }

  method ParseNoHeaders(text: string) returns (records: seq<Row>)
    ensures records == Records(Lines(text, "", false))
  {
    var lines := SplitLines(text);
    records := [];
    for i := 0 to |lines|
      invariant records + Records(lines[i..]) == Records(lines)
    {
      assert lines[i..][1..] == lines[i + 1..];
      var row := ParseLine(lines[i]);
      records := records + [row];
    }
  }

  // The first line that is not empty is the header.
  method Parse(text: string) returns (data: CsvData)
    ensures var rows := Records(Lines(text, "", false));
      data == if rows == [] then CsvData([], []) else CsvData(rows[0], rows[1..])
  {
    var lines := SplitLines(text);
    if lines == [] {
      return CsvData([], []);
    }
    var headers := ParseLine(lines[0]);
    var records: seq<Row> := [];
    for i := 1 to |lines|
      invariant records + Records(lines[i..]) == Records(lines)[1..]
    {
      assert lines[i..][1..] == lines[i + 1..];
      var row := ParseLine(lines[i]);
      records := records + [row];
    }
    return CsvData(headers, records);
  }

  // ---------------------------------------------------------------- reading what was written

  // Single steps of both readers.
  lemma OpenQuote(inner: string, current: string)
    ensures Fields([QUOTE] + inner, current, false) == Fields(inner, current, true)
    ensures Lines([QUOTE] + inner, current, false) == Lines(inner, current + [QUOTE], true)
    ensures Lines([QUOTE] + inner, current, true) == Lines(inner, current + [QUOTE], false)
  {
    assert ([QUOTE] + inner)[1..] == inner;
  }

  lemma InQuotes(c: char, inner: string, current: string)
    requires c != QUOTE
    ensures Fields([c] + inner, current, true) == Fields(inner, current + [c], true)
    ensures Lines([c] + inner, current, true) == Lines(inner, current + [c], true)
  {
    assert ([c] + inner)[1..] == inner;
  }

  lemma PairOrClose(inner: string, current: string)
    ensures Fields([QUOTE] + ([QUOTE] + inner), current, true) == Fields(inner, current + [QUOTE], true)
    ensures inner == "" || inner[0] != QUOTE ==> Fields([QUOTE] + inner, current, true) == Fields(inner, current, false)
  {
    assert ([QUOTE] + ([QUOTE] + inner))[2..] == inner && ([QUOTE] + inner)[1..] == inner;
  }

  lemma DoubledFirst(s: string, rest: string)
    requires s != ""
    ensures s[0] == QUOTE ==> Doubled(s) + rest == [QUOTE] + ([QUOTE] + (Doubled(s[1..]) + rest))
    ensures s[0] != QUOTE ==> Doubled(s) + rest == [s[0]] + (Doubled(s[1..]) + rest)
  {
    var more := Doubled(s[1..]);
    if s[0] == QUOTE {
      assert Doubled(s) == [QUOTE, QUOTE] + more;
      hide Doubled;
      Glue([QUOTE, QUOTE], more, rest);
      Glue([QUOTE], [QUOTE], more + rest);
      assert [QUOTE] + [QUOTE] == [QUOTE, QUOTE];
    } else {
      assert Doubled(s) == [s[0]] + more;
      hide Doubled;
      Glue([s[0]], more, rest);
    }
  }

  lemma NothingDoubled()
    ensures Doubled("") == ""
  {
  }

  lemma Glue(a: string, b: string, c: string)
    ensures a + b + c == a + (b + c)
  {
  }

  // Inside quotes the line splitter passes a doubled text by: each pair toggles twice.
  lemma {:induction false} DoubledStays(s: string, rest: string, current: string)
    ensures Lines(Doubled(s) + rest, current, true) == Lines(rest, current + Doubled(s), true)
  {
    hide Lines, Doubled;
    if s == "" {
      NothingDoubled();
      assert "" + rest == rest && current + "" == current;
    } else {
      var more := Doubled(s[1..]);
      DoubledFirst(s, rest);
      DoubledFirst(s, "");
      assert Doubled(s) + "" == Doubled(s) && more + "" == more;
      if s[0] == QUOTE {
        OpenQuote([QUOTE] + (more + rest), current);
        OpenQuote(more + rest, current + [QUOTE]);
        DoubledStays(s[1..], rest, current + [QUOTE] + [QUOTE]);
        Glue(current + [QUOTE], [QUOTE], more);
        Glue(current, [QUOTE], [QUOTE] + more);
      } else {
        InQuotes(s[0], more + rest, current);
        DoubledStays(s[1..], rest, current + [s[0]]);
        Glue(current, [s[0]], more);
      }
    }
  }

  lemma {:induction false} PlainStays(s: string, rest: string, current: string)
    requires !NeedsQuotes(s)
    ensures Lines(s + rest, current, false) == Lines(rest, current + s, false)
  {
    if s == "" {
      assert s + rest == rest && current + s == current;
    } else {
      assert (s + rest)[0] == s[0] && (s + rest)[1..] == s[1..] + rest;
      PlainStays(s[1..], rest, current + [s[0]]);
      assert current + [s[0]] + s[1..] == current + s;
    }
  }

  lemma FieldStays(f: string, rest: string, current: string)
    ensures Lines(Escape(f) + rest, current, false) == Lines(rest, current + Escape(f), false)
  {
    if NeedsQuotes(f) {
      hide Doubled, NeedsQuotes, Lines;
      var tail, body := [QUOTE] + rest, Doubled(f);
      assert Escape(f) + rest == [QUOTE] + (body + tail);
      assert Escape(f) == [QUOTE] + (body + [QUOTE]);
      OpenQuote(body + tail, current);
      DoubledStays(f, tail, current + [QUOTE]);
      OpenQuote(rest, current + [QUOTE] + body);
      hide Escape;
      Glue(current + [QUOTE], body, [QUOTE]);
      Glue(current, [QUOTE], body + [QUOTE]);
    } else {
      PlainStays(f, rest, current);
    }
  }

  lemma {:induction false} RowStays(row: Row, rest: string, current: string)
    ensures Lines(RowText(row) + rest, current, false) == Lines(rest, current + RowText(row), false)
  {
    hide Escape;
    if row == [] {
      assert RowText(row) + rest == rest && current + RowText(row) == current;
    } else if |row| == 1 {
      FieldStays(row[0], rest, current);
    } else {
      var tail := RowText(row[1..]) + rest;
      assert RowText(row) + rest == Escape(row[0]) + ("," + tail);
      FieldStays(row[0], "," + tail, current);
      assert ("," + tail)[1..] == tail;
      RowStays(row[1..], rest, current + Escape(row[0]) + ",");
      assert current + Escape(row[0]) + "," + RowText(row[1..]) == current + RowText(row);
    }
  }

  // A written row never ends in a carriage return, and is empty only for a row that is lost.
  predicate Kept(row: Row) {
    row != [] && row != [""]
  }

  lemma {:induction false} RowEnd(row: Row)
    ensures RowText(row) != "" ==> RowText(row)[|RowText(row)| - 1] != '\r'
    ensures RowText(row) == "" <==> !Kept(row)
  {
    if row != [] {
      if |row| == 1 {
        assert row == [row[0]];
        if row[0] != "" && !NeedsQuotes(row[0]) { assert row[0][|row[0]| - 1] in row[0]; }
      } else {
        RowEnd(row[1..]);
      }
    }
  }

  // A doubled text inside quotes is read back up to its closing quote.
  lemma {:induction false} DoubledRead(s: string, rest: string, current: string)
    requires rest == "" || rest[0] != QUOTE
    ensures Fields(Doubled(s) + ([QUOTE] + rest), current, true) == Fields(rest, current + s, false)
  {
    hide Fields, Doubled;
    var tail := [QUOTE] + rest;
    if s == "" {
      NothingDoubled();
      assert "" + tail == tail && current + "" == current;
      PairOrClose(rest, current);
    } else {
      var more := Doubled(s[1..]) + tail;
      DoubledFirst(s, tail);
      DoubledRead(s[1..], rest, current + [s[0]]);
      Glue(current, [s[0]], s[1..]);
      assert [s[0]] + s[1..] == s;
      if s[0] == QUOTE {
        PairOrClose(more, current);
      } else {
        InQuotes(s[0], more, current);
      }
    }
  }

  lemma {:induction false} PlainRead(s: string, rest: string, current: string)
    requires !NeedsQuotes(s)
    ensures Fields(s + rest, current, false) == Fields(rest, current + s, false)
  {
    if s == "" {
      assert s + rest == rest && current + s == current;
    } else {
      assert (s + rest)[0] == s[0] && (s + rest)[1..] == s[1..] + rest;
      PlainRead(s[1..], rest, current + [s[0]]);
      assert current + [s[0]] + s[1..] == current + s;
    }
  }

  lemma FieldRead(f: string, rest: string)
    requires rest == "" || rest[0] == ','
    ensures Fields(Escape(f) + rest, "", false) == Fields(rest, f, false)
  {
    hide Doubled, NeedsQuotes;
    if NeedsQuotes(f) {
      var inner := Doubled(f) + ([QUOTE] + rest);
      assert Escape(f) + rest == [QUOTE] + inner;
      OpenQuote(inner, "");
      hide Fields, Escape;
      DoubledRead(f, rest, "");
      assert "" + f == f;
    } else {
      PlainRead(f, rest, "");
      assert "" + f == f;
    }
  }

  lemma {:induction false} RowRead(row: Row)
    requires row != []
    ensures Fields(RowText(row), "", false) == row
  {
    hide Escape;
    if |row| == 1 {
      FieldRead(row[0], "");
      assert Escape(row[0]) + "" == RowText(row);
    } else {
      var tail := "," + RowText(row[1..]);
      assert RowText(row) == Escape(row[0]) + tail;
      FieldRead(row[0], tail);
      assert tail[1..] == RowText(row[1..]);
      RowRead(row[1..]);
    }
  }

  function KeptRows(rows: seq<Row>): (r: seq<Row>)
    ensures |r| <= |rows|
  {
    if rows == [] then [] else (if Kept(rows[0]) then [rows[0]] else []) + KeptRows(rows[1..])
  }

  // A written row becomes a line of its own, or none.
  lemma LineRead(row: Row, inner: string)
    ensures Lines(RowText(row) + ("\n" + inner), "", false) == (if Kept(row) then [RowText(row)] else []) + Lines(inner, "", false)
  {
    hide RowText;
    var text := RowText(row);
    RowStays(row, "\n" + inner, "");
    assert "" + text == text && ("\n" + inner)[1..] == inner;
    RowEnd(row);
  }

  lemma NoLines()
    ensures Lines("", "", false) == []
  {
  }

  lemma KeptSome(row: Row)
    requires Kept(row)
    ensures row != []
  {
  }

  // Reading written rows gives exactly those that are neither empty nor one empty field.
  lemma {:induction false} RowsRead(rows: seq<Row>)
    ensures Records(Lines(RowsText(rows), "", false)) == KeptRows(rows)
  {
    hide RowText, Fields, Lines, Kept;
    if rows == [] {
      NoLines();
    } else {
      var row, inner := rows[0], RowsText(rows[1..]);
      Glue(RowText(row), "\n", inner);
      LineRead(row, inner);
      RowsRead(rows[1..]);
      var more := Lines(inner, "", false);
      if Kept(row) {
        KeptSome(row);
        RowRead(row);
        assert ([RowText(row)] + more)[1..] == more;
      } else {
        assert [] + more == more;
      }
    }
  }

  lemma {:induction false} AllKept(rows: seq<Row>)
    ensures |KeptRows(rows)| == |rows| <==> forall i :: 0 <= i < |rows| ==> Kept(rows[i])
    ensures (forall i :: 0 <= i < |rows| ==> Kept(rows[i])) ==> KeptRows(rows) == rows
  {
    if rows != [] {
      AllKept(rows[1..]);
      if forall i :: 0 <= i < |rows| ==> Kept(rows[i]) {
        forall i | 0 <= i < |rows| - 1 ensures Kept(rows[1..][i]) { assert rows[1..][i] == rows[i + 1]; }
      } else {
        var i :| 0 <= i < |rows| && !Kept(rows[i]);
        if i > 0 { assert !Kept(rows[1..][i - 1]); }
      }
    }
  }

  // Writing and reading back gives the same data exactly when no row is lost, or there is nothing at all.
  method RoundTrip(headers: Row, rows: seq<Row>) returns (data: CsvData)
    ensures data == CsvData(headers, rows) <==>
      (Kept(headers) && forall i :: 0 <= i < |rows| ==> Kept(rows[i])) || (headers == [] && rows == [])
  {
    var all := [headers] + rows;
    var text := Write(headers, rows);
    data := Parse(text);
    RowsRead(all);
    AllKept(all);
    ghost var kept := KeptRows(all);
    assert all[0] == headers && all[1..] == rows;
    if forall i :: 0 <= i < |all| ==> Kept(all[i]) {
      assert Kept(all[0]);
      forall i | 0 <= i < |rows| ensures Kept(rows[i]) { assert Kept(all[i + 1]); }
    } else {
      assert |kept| < |all|;
      ghost var i :| 0 <= i < |all| && !Kept(all[i]);
      if i > 0 { assert !Kept(rows[i - 1]); }
      if headers == [] && rows == [] { assert kept == []; }
    }
  }

  // ---------------------------------------------------------------- line ends

  // The text with a carriage return before each end of a line; a line feed inside quotes is none.
  function WithReturns(s: string, quoted: bool): string {
    if s == "" then ""
    else if s[0] == QUOTE then [QUOTE] + WithReturns(s[1..], !quoted)
    else if s[0] == '\n' && !quoted then "\r\n" + WithReturns(s[1..], false)
    else [s[0]] + WithReturns(s[1..], quoted)
  }

  // No line that is ended by a line feed has a carriage return there already.
  predicate FeedsOnly(s: string, current: string, quoted: bool) {
    if s == "" then true
    else if s[0] == QUOTE then FeedsOnly(s[1..], current + [QUOTE], !quoted)
    else if s[0] == '\n' && !quoted then (current == "" || current[|current| - 1] != '\r') && FeedsOnly(s[1..], "", false)
    else FeedsOnly(s[1..], current + [s[0]], quoted)
  }

  lemma EndedTwice(inner: string, current: string)
    ensures Lines("\r\n" + inner, current, false) == (if current == "" then [] else [current]) + Lines(inner, "", false)
  {
    var s := "\r\n" + inner;
    assert s[1..][1..] == inner;
    assert (current + ['\r'])[..|current|] == current;
  }

  lemma NextChar(c: char, inner: string, current: string, quoted: bool)
    requires c != QUOTE && (c != '\n' || quoted)
    ensures Lines([c] + inner, current, quoted) == Lines(inner, current + [c], quoted)
  {
    assert ([c] + inner)[1..] == inner;
  }

  // Lines that end in a carriage return and a line feed are read as those that end in a line feed.
  lemma {:induction false} ReturnsIgnored(s: string, current: string, quoted: bool)
    requires FeedsOnly(s, current, quoted)
    ensures Lines(WithReturns(s, quoted), current, quoted) == Lines(s, current, quoted)
  {
    if s != "" {
      var c, tail := s[0], s[1..];
      assert s == [c] + tail;
      if c == QUOTE {
        ReturnsIgnored(tail, current + [QUOTE], !quoted);
        OpenQuote(WithReturns(tail, !quoted), current);
      } else if c == '\n' && !quoted {
        ReturnsIgnored(tail, "", false);
        EndedTwice(WithReturns(tail, false), current);
      } else {
        ReturnsIgnored(tail, current + [c], quoted);
        NextChar(c, WithReturns(tail, quoted), current, quoted);
      }
    }
  }
}
