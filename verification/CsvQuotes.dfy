// Reading any CSV text, written by this writer or not: what a quote, a comma or a line feed means depends only on how
// many quotes stand before it.
module CsvQuotes {
  import opened Csv

  // Whether the place lies between an opening quote and the one that closes it.
  predicate Inside(s: string, i: nat)
    requires i <= |s|
    decreases i
  {
    i > 0 && (if s[i - 1] == QUOTE then !Inside(s, i - 1) else Inside(s, i - 1))
  }

  predicate Separates(line: string, i: nat)
    requires i < |line|
  {
    line[i] == ',' && !Inside(line, i)
  }

  // Any character but a quote belongs to its field; of quotes only the first of two in a row inside quotes does.
  predicate Belongs(line: string, i: nat)
    requires i < |line|
  {
    line[i] != QUOTE || (Inside(line, i) && i + 1 < |line| && line[i + 1] == QUOTE)
  }

  function Split(line: string, i: nat, current: string): Row
    requires i <= |line|
    decreases |line| - i
  {
    if i == |line| then [current]
    else if Separates(line, i) then [current] + Split(line, i + 1, "")
    else Split(line, i + 1, current + if Belongs(line, i) then [line[i]] else "")
  }

  predicate EndsLine(text: string, i: nat)
    requires i < |text|
  {
    text[i] == '\n' && !Inside(text, i)
  }

  // Empty lines are dropped, and a carriage return at the end of a line.
  function Feeds(text: string, i: nat, start: nat): seq<string>
    requires start <= i <= |text|
    decreases |text| - i
  {
    if i == |text| then Finished(text[start..])
    else if EndsLine(text, i) then Finished(text[start..i]) + Feeds(text, i + 1, i + 1)
    else Feeds(text, i + 1, start)
  }

  // Behind the first `i` characters the reader is inside quotes exactly where their number is odd.
  lemma {:induction false} FieldsFrom(line: string, i: nat, current: string)
    requires i <= |line|
    ensures Fields(line[i..], current, Inside(line, i)) == Split(line, i, current)
    decreases |line| - i
  {
    var s := line[i..];
    if i < |line| {
      assert s[1..] == line[i + 1..];
      var next := current + [line[i]];
      if Inside(line, i) && line[i] == QUOTE && i + 1 < |line| && line[i + 1] == QUOTE {
        assert s[2..] == line[i + 2..];
        PairSplit(line, i, current);
        FieldsFrom(line, i + 2, current + [QUOTE]);
      } else if Separates(line, i) {
        FieldsFrom(line, i + 1, "");
      } else if Belongs(line, i) {
        FieldsFrom(line, i + 1, next);
      } else {
        assert current + "" == current;
        FieldsFrom(line, i + 1, current);
      }
    }
  }

  // Two quotes in a row inside quotes.
  lemma PairSplit(line: string, i: nat, current: string)
    requires i + 1 < |line| && Inside(line, i) && line[i] == QUOTE && line[i + 1] == QUOTE
    ensures Split(line, i, current) == Split(line, i + 2, current + [QUOTE]) && Inside(line, i + 2)
  {
    assert !Inside(line, i + 1);
    assert current + [QUOTE] + "" == current + [QUOTE];
  }

  // The fields of any line.
  lemma LineFields(line: string)
    ensures Fields(line, "", false) == Split(line, 0, "")
  {
    FieldsFrom(line, 0, "");
    assert line[0..] == line;
  }

  lemma {:induction false} LinesFrom(text: string, i: nat, start: nat)
    requires start <= i <= |text|
    ensures Lines(text[i..], text[start..i], Inside(text, i)) == Feeds(text, i, start)
    decreases |text| - i
  {
    var s := text[i..];
    if i < |text| {
      assert s[1..] == text[i + 1..];
      if EndsLine(text, i) {
        assert text[i + 1..i + 1] == "" && !Inside(text, i + 1);
        LinesFrom(text, i + 1, i + 1);
      } else {
        assert text[start..i] + [text[i]] == text[start..i + 1];
        LinesFrom(text, i + 1, start);
      }
    } else {
      assert text[start..i] == text[start..];
    }
  }

  // The lines of any text.
  lemma TextLines(text: string)
    ensures Lines(text, "", false) == Feeds(text, 0, 0)
  {
    LinesFrom(text, 0, 0);
    assert text[0..] == text && text[0..0] == "";
  }

  // Separators are counted one by one: a line has one field more than commas outside quotes.
  function Commas(line: string, i: nat): nat
    requires i <= |line|
    decreases |line| - i
  {
    if i == |line| then 0 else (if Separates(line, i) then 1 else 0) + Commas(line, i + 1)
  }

  lemma {:induction false} FieldCount(line: string, i: nat, current: string)
    requires i <= |line|
    ensures |Split(line, i, current)| == 1 + Commas(line, i)
    decreases |line| - i
  {
    if i < |line| {
      FieldCount(line, i + 1, if Separates(line, i) then "" else current + if Belongs(line, i) then [line[i]] else "");
    }
  }
}
