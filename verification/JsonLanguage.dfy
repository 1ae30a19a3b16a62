// The JSON parser accepts exactly the grammar's text, up to the depth limit, and gives each text its value.
module JsonLanguage {
  import opened Wrappers
  import D = Decimal
  import J = Json
  import OrderedMap
  import P = JsonParser
  import opened JsonGrammar

  // ---------------------------------------------------------------- blanks

  lemma {:induction false} BlanksOf(s: string) returns (blank: string)
    ensures J.AllBlank(blank) && s == blank + J.SkipBlank(s)
  {
    if s != "" && J.Blank(s[0]) {
      var more := BlanksOf(s[1..]);
      blank := [s[0]] + more;
    } else {
      blank := "";
    }
  }

  lemma OneBlankBefore(s: string, depth: nat)
    ensures J.ParseOne(J.SkipBlank(s), depth) == J.ParseOne(s, depth)
  {
    J.SkipTwice(s);
    hide J.SkipBlank, J.ParseItems, J.ParseMembers, J.ParseString, J.ParseNumber;
  }

  // What comes after an item.
  function AfterItem(r: Result<(J.Value, string), J.Error>, depth: nat, items: seq<J.Value>): Result<(J.Value, string), J.Error> {
    match r
    case Err(e) => Err(e)
    case Ok((v, rest)) =>
      var u := J.SkipBlank(rest);
      if u == "" then Err(J.UnterminatedArray)
      else if u[0] == ']' then Ok((J.Array(items + [v]), u[1..]))
      else if u[0] != ',' then Err(J.ArraySeparator)
      else J.ParseItems(u[1..], depth, items + [v])
  }

  lemma ItemsByOne(s: string, depth: nat, items: seq<J.Value>)
    ensures J.ParseItems(s, depth, items) == AfterItem(J.ParseOne(s, depth + 1), depth, items)
  {
    hide J.SkipBlank, J.ParseOne;
  }

  lemma ItemsBlankBefore(s: string, depth: nat, items: seq<J.Value>)
    ensures J.ParseItems(J.SkipBlank(s), depth, items) == J.ParseItems(s, depth, items)
  {
    hide J.ParseItems, AfterItem, J.ParseOne, J.SkipBlank;
    ItemsByOne(s, depth, items);
    ItemsByOne(J.SkipBlank(s), depth, items);
    OneBlankBefore(s, depth + 1);
  }

  lemma MembersBlankBefore(s: string, depth: nat, members: J.Members)
    ensures J.ParseMembers(J.SkipBlank(s), depth, members) == J.ParseMembers(s, depth, members)
  {
    J.SkipTwice(s);
    hide J.SkipBlank, J.ParseOne, J.ParseString;
  }

  // ---------------------------------------------------------------- texts are read

  // Behind a value: its end, a blank, a comma or a bracket that closes.
  predicate Stops(rest: string) {
    rest != "" ==> J.Blank(rest[0]) || rest[0] in ",]}"
  }

  lemma StopsApart(rest: string)
    requires Stops(rest)
    ensures Apart(rest)
  {
  }

  ghost function Outcome(t: Tree, depth: nat, rest: string): Result<(J.Value, string), J.Error>
    requires Proper(t)
  {
    if depth + Height(t) <= J.MAX_DEPTH then Ok((Means(t), rest)) else Err(J.TooDeep)
  }

  // The first character of a value tells its kind.
  lemma TreeStarts(t: Tree)
    requires Proper(t)
    ensures var s := TreeText(t);
      && s != "" && !J.Blank(s[0]) && s[0] != ']' && s[0] != '}'
      && (t.Figured? ==> s[0] == '-' || D.IsDigit(s[0]))
  {
    hide ItemsText, MembersText, PiecesText, FractionText, ExponentText, FigureMeans;
  }

  lemma LeafRead(t: Tree, depth: nat, rest: string)
    requires Proper(t) && (t.Word? || t.Figured? || t.Quoted?) && Stops(rest)
    ensures J.ParseOne(TreeText(t) + rest, depth) == Outcome(t, depth, rest)
  {
    hide J.SkipBlank, J.ParseNumber, J.ParseString, FigureText, PiecesText, FigureMeans;
    var s := TreeText(t) + rest;
    TreeStarts(t);
    J.Unblank(s);
    match t
    case Word(v) =>
      if v == J.Bool(true) { assert s[|"true"|..] == rest && "true" <= s; }
      else if v == J.Bool(false) { assert s[|"false"|..] == rest && "false" <= s; }
      else { assert s[|"null"|..] == rest && "null" <= s; }
    case Figured(f) => StopsApart(rest); FigureRead(f, rest); assert s == FigureText(f) + rest;
    case Quoted(ps) =>
      assert s[1..] == PiecesText(ps) + ("\"" + rest);
      StringMeans(ps, rest, "");
      assert "" + PiecesMean(ps) == PiecesMean(ps);
  }

  lemma {:induction false} TreeRead(t: Tree, depth: nat, rest: string)
    requires Proper(t) && Stops(rest)
    ensures J.ParseOne(TreeText(t) + rest, depth) == Outcome(t, depth, rest)
    decreases t, 0
  {
    hide J.ParseOne, J.ParseItems, J.ParseMembers, J.SkipBlank, Stops, ItemsText, MembersText, ItemProper, MemberProper;
    match t
    case List(blank, items) =>
      if items == [] {
        EmptyList(blank, depth, rest);
        NoItems();
        assert TreeText(t) + rest == "[" + (blank + ("]" + rest));
      } else {
        assert [] + ItemsMean(items) == ItemsMean(items);
        ItemsRead(items, depth, [], rest);
        ItemsStart(items, "]" + rest);
        OpenList(ItemsText(items) + ("]" + rest), depth);
        assert TreeText(t) + rest == "[" + (ItemsText(items) + ("]" + rest));
        DeepFirst(depth, ItemsHeight(items));
      }
    case Record(blank, members) =>
      if members == [] {
        EmptyRecord(blank, depth, rest);
        NoItems();
        assert TreeText(t) + rest == "{" + (blank + ("}" + rest));
      } else {
        MembersRead(members, depth, [], rest);
        MembersStart(members, "}" + rest);
        OpenRecord(MembersText(members) + ("}" + rest), depth);
        assert TreeText(t) + rest == "{" + (MembersText(members) + ("}" + rest));
        DeepFirst(depth, MembersHeight(members));
      }
    case _ => LeafRead(t, depth, rest);
  }

  lemma NoItems()
    ensures ItemsMean([]) == [] && ItemsHeight([]) == 0 && MembersMean([], []) == [] && MembersHeight([]) == 0
  {
  }

  lemma DeepFirst(depth: nat, height: nat)
    ensures depth > J.MAX_DEPTH ==> depth + height > J.MAX_DEPTH
  {
  }

  lemma EmptyList(blank: string, depth: nat, rest: string)
    requires J.AllBlank(blank)
    ensures J.ParseOne("[" + (blank + ("]" + rest)), depth) == if depth <= J.MAX_DEPTH then Ok((J.Array([]), rest)) else Err(J.TooDeep)
  {
    var inner := blank + ("]" + rest);
    J.Unblank("[" + inner);
    J.Unblank("]" + rest);
    J.Skipped(blank, "]" + rest);
    assert ("[" + inner)[1..] == inner && ("]" + rest)[1..] == rest;
    hide J.SkipBlank, J.ParseItems, J.ParseMembers, J.ParseString, J.ParseNumber;
  }

  lemma EmptyRecord(blank: string, depth: nat, rest: string)
    requires J.AllBlank(blank)
    ensures J.ParseOne("{" + (blank + ("}" + rest)), depth) == if depth <= J.MAX_DEPTH then Ok((J.Object([]), rest)) else Err(J.TooDeep)
  {
    var inner := blank + ("}" + rest);
    J.Unblank("{" + inner);
    J.Unblank("}" + rest);
    J.Skipped(blank, "}" + rest);
    assert ("{" + inner)[1..] == inner && ("}" + rest)[1..] == rest;
    hide J.SkipBlank, J.ParseItems, J.ParseMembers, J.ParseString, J.ParseNumber;
  }

  lemma OpenList(inner: string, depth: nat)
    requires var u := J.SkipBlank(inner); u != "" && u[0] != ']'
    ensures J.ParseOne("[" + inner, depth) == if depth > J.MAX_DEPTH then Err(J.TooDeep) else J.ParseItems(inner, depth, [])
  {
    ItemsBlankBefore(inner, depth, []);
    J.Unblank("[" + inner);
    assert ("[" + inner)[1..] == inner;
    hide J.SkipBlank, J.ParseItems, J.ParseMembers, J.ParseString, J.ParseNumber;
  }

  lemma OpenRecord(inner: string, depth: nat)
    requires var u := J.SkipBlank(inner); u != "" && u[0] != '}'
    ensures J.ParseOne("{" + inner, depth) == if depth > J.MAX_DEPTH then Err(J.TooDeep) else J.ParseMembers(inner, depth, [])
  {
    MembersBlankBefore(inner, depth, []);
    J.Unblank("{" + inner);
    assert ("{" + inner)[1..] == inner;
    hide J.SkipBlank, J.ParseItems, J.ParseMembers, J.ParseString, J.ParseNumber;
  }

  lemma ItemsStart(items: seq<Item>, tail: string)
    requires items != [] && ItemProper(items[0])
    ensures var u := J.SkipBlank(ItemsText(items) + tail); u != "" && u[0] != ']'
  {
    hide J.SkipBlank, TreeText, J.AllBlank;
    var i := items[0];
    var more := if |items| == 1 then "" else "," + ItemsText(items[1..]);
    ItemParts(i, more + tail);
    assert ItemsText(items) + tail == ItemText(i) + (more + tail);
  }

  // The blanks before an item are skipped, and its value stands there.
  lemma ItemParts(i: Item, tail: string)
    requires ItemProper(i)
    ensures J.SkipBlank(ItemText(i) + tail) == TreeText(i.tree) + (i.after + tail)
    ensures TreeText(i.tree) != "" && TreeText(i.tree)[0] != ']' && TreeText(i.tree)[0] != '}'
  {
    hide J.SkipBlank, TreeText;
    TreeStarts(i.tree);
    var s := TreeText(i.tree) + (i.after + tail);
    assert ItemText(i) + tail == i.before + s;
    J.Skipped(i.before, s);
    J.Unblank(s);
  }

  lemma {:induction false} ItemRead(i: Item, depth: nat, tail: string)
    requires ItemProper(i) && tail != "" && tail[0] in ",]}"
    ensures J.ParseOne(ItemText(i) + tail, depth) == Outcome(i.tree, depth, i.after + tail)
    ensures J.SkipBlank(i.after + tail) == tail
    decreases i, 1
  {
    hide J.SkipBlank, J.ParseOne, TreeText;
    ItemParts(i, tail);
    assert Stops(i.after + tail);
    TreeRead(i.tree, depth, i.after + tail);
    OneBlankBefore(ItemText(i) + tail, depth);
    J.Skipped(i.after, tail);
    J.Unblank(tail);
  }

  lemma {:induction false} ItemsRead(items: seq<Item>, depth: nat, done: seq<J.Value>, rest: string)
    requires items != [] && forall i :: 0 <= i < |items| ==> ItemProper(items[i])
    ensures J.ParseItems(ItemsText(items) + ("]" + rest), depth, done) ==
      if depth + ItemsHeight(items) <= J.MAX_DEPTH then Ok((J.Array(done + ItemsMean(items)), rest)) else Err(J.TooDeep)
    decreases items, 0
  {
    hide J.SkipBlank, J.ParseOne, J.ParseItems, ItemText, ItemProper, ItemMeans, ItemHeight, Height, Means, ItemsText, ItemsMean, ItemsHeight, Outcome;
    var first, v := items[0], ItemMeans(items[0]);
    ItemFirst(first);
    ItemRead(first, depth + 1, ItemTail(items, rest));
    ItemsNext(items, depth, done, rest);
    ItemsUnfold(items);
    if |items| == 1 {
      NoItems();
      assert items[1..] == [] && [v] + [] == [v];
    } else {
      ItemsRead(items[1..], depth, done + [v], rest);
      Append(done, v, ItemsMean(items[1..]));
    }
  }

  lemma Append(a: seq<J.Value>, v: J.Value, b: seq<J.Value>)
    ensures a + [v] + b == a + ([v] + b)
  {
  }

  // What follows the first item.
  function ItemTail(items: seq<Item>, rest: string): string
    requires items != []
  {
    if |items| == 1 then "]" + rest else "," + (ItemsText(items[1..]) + ("]" + rest))
  }

  // A list once its first item has been read.
  lemma ItemsNext(items: seq<Item>, depth: nat, done: seq<J.Value>, rest: string)
    requires items != [] && ItemProper(items[0])
    requires var i, tail := items[0], ItemTail(items, rest);
      Proper(i.tree) && J.ParseOne(ItemText(i) + tail, depth + 1) == Outcome(i.tree, depth + 1, i.after + tail) && J.SkipBlank(i.after + tail) == tail
    ensures J.ParseItems(ItemsText(items) + ("]" + rest), depth, done) ==
      if depth + 1 + ItemHeight(items[0]) > J.MAX_DEPTH then Err(J.TooDeep)
      else if |items| == 1 then Ok((J.Array(done + [ItemMeans(items[0])]), rest))
      else J.ParseItems(ItemsText(items[1..]) + ("]" + rest), depth, done + [ItemMeans(items[0])])
  {
    hide J.SkipBlank, J.ParseOne, J.ParseItems, ItemText, ItemProper, ItemMeans, ItemHeight, Height, Means, ItemsText;
    var first, tail := items[0], ItemTail(items, rest);
    ItemFirst(first);
    ItemsSplit(items, "]" + rest);
    ItemStep(ItemText(first) + tail, depth, done, first.after + tail, ItemMeans(first));
    assert |items| == 1 ==> tail[1..] == rest;
    assert |items| > 1 ==> tail[1..] == ItemsText(items[1..]) + ("]" + rest);
  }

  lemma ItemsUnfold(items: seq<Item>)
    requires items != [] && forall i :: 0 <= i < |items| ==> ItemProper(items[i])
    ensures ItemsMean(items) == [ItemMeans(items[0])] + ItemsMean(items[1..])
    ensures ItemsHeight(items) == if 1 + ItemHeight(items[0]) >= ItemsHeight(items[1..]) then 1 + ItemHeight(items[0]) else ItemsHeight(items[1..])
  {
    hide ItemMeans, ItemHeight, ItemProper;
  }

  lemma ItemFirst(i: Item)
    requires ItemProper(i)
    ensures Proper(i.tree) && ItemMeans(i) == Means(i.tree) && ItemHeight(i) == Height(i.tree)
  {
    hide Means, Height, Proper;
  }

  lemma ItemsSplit(items: seq<Item>, close: string)
    requires items != []
    ensures ItemsText(items) + close == ItemText(items[0]) + if |items| == 1 then close else "," + (ItemsText(items[1..]) + close)
  {
    hide ItemText;
    var more := if |items| == 1 then "" else "," + ItemsText(items[1..]);
    assert ItemsText(items) == ItemText(items[0]) + more;
    Glue(ItemText(items[0]), more, close);
    if |items| == 1 { assert more + close == close; } else { Glue(",", ItemsText(items[1..]), close); }
    hide ItemsText;
  }

  lemma Glue(a: string, b: string, c: string)
    ensures a + b + c == a + (b + c)
  {
  }

  // One item of a list, read with `after` behind it.
  lemma ItemStep(s: string, depth: nat, done: seq<J.Value>, after: string, v: J.Value)
    requires J.ParseOne(s, depth + 1) == Ok((v, after)) || J.ParseOne(s, depth + 1).Err?
    requires var u := J.SkipBlank(after); u != "" && (u[0] == ']' || u[0] == ',')
    ensures var u := J.SkipBlank(after);
      J.ParseItems(s, depth, done) ==
        if J.ParseOne(s, depth + 1).Err? then Err(J.ParseOne(s, depth + 1).error)
        else if u[0] == ']' then Ok((J.Array(done + [v]), u[1..]))
        else J.ParseItems(u[1..], depth, done + [v])
  {
    hide J.SkipBlank, J.ParseOne, J.ParseItems;
    ItemsByOne(s, depth, done);
  }

  // ---- members ----

  lemma KeyRead(m: Member, tail: string)
    requires MemberProper(m)
    ensures P.KeyOf(MemberText(m) + tail) == Ok((KeyMeans(m), ItemText(m.item) + tail))
    ensures var u := J.SkipBlank(MemberText(m) + tail); u != "" && u[0] == '\"'
  {
    hide J.SkipBlank, J.ParseString, ItemText, PiecesText, PiecesMean;
    var item := ItemText(m.item) + tail;
    var colon := m.colon + (":" + item);
    var key := PiecesText(m.key) + ("\"" + colon);
    assert MemberText(m) + tail == m.before + ("\"" + key);
    J.Skipped(m.before, "\"" + key);
    J.Unblank("\"" + key);
    StringMeans(m.key, colon, "");
    assert ("\"" + key)[1..] == key && "" + PiecesMean(m.key) == PiecesMean(m.key);
    J.Skipped(m.colon, ":" + item);
    J.Unblank(":" + item);
    assert (":" + item)[1..] == item;
  }

  lemma MembersStart(members: seq<Member>, tail: string)
    requires members != [] && MemberProper(members[0])
    ensures var u := J.SkipBlank(MembersText(members) + tail); u != "" && u[0] != '}'
  {
    hide J.SkipBlank, MemberText, MemberProper, P.KeyOf;
    var more := if |members| == 1 then "" else "," + MembersText(members[1..]);
    KeyRead(members[0], more + tail);
    assert MembersText(members) + tail == MemberText(members[0]) + (more + tail);
  }

  lemma MemberFirst(m: Member)
    requires MemberProper(m)
    ensures ItemProper(m.item) && Proper(m.item.tree)
    ensures MemberMeans(m) == Means(m.item.tree) && MemberHeight(m) == Height(m.item.tree)
  {
    hide Means, Height, Proper;
  }

  lemma MembersSplit(members: seq<Member>, close: string)
    requires members != []
    ensures MembersText(members) + close == MemberText(members[0]) + if |members| == 1 then close else "," + (MembersText(members[1..]) + close)
  {
    hide MemberText;
    var more := if |members| == 1 then "" else "," + MembersText(members[1..]);
    assert MembersText(members) == MemberText(members[0]) + more;
    Glue(MemberText(members[0]), more, close);
    if |members| == 1 { assert more + close == close; } else { Glue(",", MembersText(members[1..]), close); }
    hide MembersText;
  }

  // One member of an object, read with `after` behind it.
  lemma MemberStep(s: string, item: string, depth: nat, done: J.Members, key: string, after: string, v: J.Value)
    requires P.KeyOf(s) == Ok((key, item))
    requires J.ParseOne(item, depth + 1) == Ok((v, after)) || J.ParseOne(item, depth + 1).Err?
    requires var u := J.SkipBlank(after); u != "" && (u[0] == '}' || u[0] == ',')
    ensures var u := J.SkipBlank(after);
      J.ParseMembers(s, depth, done) ==
        if J.ParseOne(item, depth + 1).Err? then Err(J.ParseOne(item, depth + 1).error)
        else if u[0] == '}' then Ok((J.Object(OrderedMap.Put(done, key, v)), u[1..]))
        else J.ParseMembers(u[1..], depth, OrderedMap.Put(done, key, v))
  {
    hide J.SkipBlank, J.ParseOne, J.ParseMembers, P.KeyOf, OrderedMap.Put;
    P.MembersByKey(s, depth, done);
  }

  lemma {:induction false} MembersRead(members: seq<Member>, depth: nat, done: J.Members, rest: string)
    requires members != [] && forall i :: 0 <= i < |members| ==> MemberProper(members[i])
    ensures J.ParseMembers(MembersText(members) + ("}" + rest), depth, done) ==
      if depth + MembersHeight(members) <= J.MAX_DEPTH then Ok((J.Object(MembersMean(done, members)), rest)) else Err(J.TooDeep)
    decreases members, 0
  {
    hide J.SkipBlank, J.ParseOne, J.ParseMembers, MemberText, ItemText, MemberProper, ItemProper, Height, Means, P.KeyOf, OrderedMap.Put, KeyMeans,
         MemberMeans, MemberHeight;
    var first, close := members[0], "}" + rest;
    var tail := if |members| == 1 then close else "," + (MembersText(members[1..]) + close);
    MemberFirst(first);
    KeyRead(first, tail);
    MemberItemRead(first, depth + 1, tail);
    MembersSplit(members, close);
    var v := MemberMeans(first);
    MemberStep(MemberText(first) + tail, ItemText(first.item) + tail, depth, done, KeyMeans(first), first.item.after + tail, v);
    var more := OrderedMap.Put(done, KeyMeans(first), v);
    if |members| == 1 {
      assert tail[1..] == rest;
      assert MembersMean(done, members) == more by { LastMember(done, members); }
    } else {
      assert tail[1..] == MembersText(members[1..]) + close;
      MembersRead(members[1..], depth, more, rest);
    }
  }

  lemma LastMember(done: J.Members, members: seq<Member>)
    requires |members| == 1 && forall i :: 0 <= i < |members| ==> MemberProper(members[i])
    ensures MembersMean(done, members) == OrderedMap.Put(done, KeyMeans(members[0]), MemberMeans(members[0]))
  {
    hide MemberProper, OrderedMap.Put;
    assert members[1..] == [];
  }

  lemma {:induction false} MemberItemRead(m: Member, depth: nat, tail: string)
    requires MemberProper(m) && ItemProper(m.item) && tail != "" && tail[0] in ",]}"
    ensures J.ParseOne(ItemText(m.item) + tail, depth) == Outcome(m.item.tree, depth, m.item.after + tail)
    ensures J.SkipBlank(m.item.after + tail) == tail
    decreases m, 2
  {
    hide J.SkipBlank, J.ParseOne;
    ItemRead(m.item, depth, tail);
  }

  // ---------------------------------------------------------------- what is read is of the grammar

  // How a reading starts: behind the blanks.
  lemma Begun(s: string, depth: nat)
    requires J.ParseOne(s, depth).Ok?
    ensures var u := J.SkipBlank(s);
      && depth <= J.MAX_DEPTH && u != ""
      && (u[0] == 'n' ==> J.ParseOne(s, depth) == J.Expect(u, "null", J.Null))
      && (u[0] == 't' ==> J.ParseOne(s, depth) == J.Expect(u, "true", J.Bool(true)))
      && (u[0] == 'f' ==> J.ParseOne(s, depth) == J.Expect(u, "false", J.Bool(false)))
      && (u[0] == '[' ==> J.ParseOne(s, depth) == P.AfterBracket(u[1..], depth))
      && (u[0] == '{' ==> J.ParseOne(s, depth) == P.AfterBrace(u[1..], depth))
      && (u[0] == '\"' ==> J.ParseString(u[1..], "").Ok?)
      && (u[0] !in "ntf\"[{" ==> (u[0] == '-' || D.IsDigit(u[0])) && J.ParseNumber(u).Ok?)
    ensures var u := J.SkipBlank(s);
      u[0] == '\"' ==> J.ParseOne(s, depth) == Ok((J.Str(J.ParseString(u[1..], "").value.0), J.ParseString(u[1..], "").value.1))
    ensures var u := J.SkipBlank(s);
      u[0] !in "ntf\"[{" ==> J.ParseOne(s, depth) == Ok((J.Num(J.ParseNumber(u).value.0), J.ParseNumber(u).value.1))
  {
    hide J.SkipBlank, J.ParseItems, J.ParseMembers, J.ParseString, J.ParseNumber, J.Expect;
  }

  // The tree of a text that was read, with what stands behind it.
  ghost predicate Reads(s: string, depth: nat, before: string, t: Tree, v: J.Value, rest: string) {
    && J.AllBlank(before) && Proper(t) && Means(t) == v && depth + Height(t) <= J.MAX_DEPTH
    && s == before + (TreeText(t) + rest)
  }

  lemma WordAccepted(s: string, depth: nat, before: string, word: J.Value, text: string)
    requires J.AllBlank(before) && s == before + J.SkipBlank(s) && depth <= J.MAX_DEPTH
    requires (word.Null? || word.Bool?) && TreeText(Word(word)) == text && J.Expect(J.SkipBlank(s), text, word).Ok?
    ensures var (v, rest) := J.Expect(J.SkipBlank(s), text, word).value; Reads(s, depth, before, Word(word), v, rest)
  {
    hide J.SkipBlank, TreeText;
    var u := J.SkipBlank(s);
    assert u == text + u[|text|..];
  }

  lemma {:induction false} TreeAccepted(s: string, depth: nat) returns (before: string, t: Tree)
    requires J.ParseOne(s, depth).Ok?
    ensures var (v, rest) := J.ParseOne(s, depth).value; Reads(s, depth, before, t, v, rest)
    decreases |s|, 0
  {
    hide J.ParseOne, J.SkipBlank, J.ParseString, J.ParseNumber, J.Expect, P.AfterBracket, P.AfterBrace, Reads;
    var u := J.SkipBlank(s);
    before := BlanksOf(s);
    Begun(s, depth);
    if u[0] == 'n' {
      t := Word(J.Null);
      WordAccepted(s, depth, before, J.Null, "null");
    } else if u[0] == 't' {
      t := Word(J.Bool(true));
      WordAccepted(s, depth, before, J.Bool(true), "true");
    } else if u[0] == 'f' {
      t := Word(J.Bool(false));
      WordAccepted(s, depth, before, J.Bool(false), "false");
    } else if u[0] == '\"' {
      t := QuotedAccepted(s, depth, before);
    } else if u[0] == '[' {
      t := ListAccepted(s, depth, before);
    } else if u[0] == '{' {
      t := RecordAccepted(s, depth, before);
    } else {
      t := FiguredAccepted(s, depth, before);
    }
  }

  lemma QuotedAccepted(s: string, depth: nat, before: string) returns (t: Tree)
    requires var u := J.SkipBlank(s); u != "" && u[0] == '\"' && J.ParseString(u[1..], "").Ok?
    requires J.AllBlank(before) && s == before + J.SkipBlank(s) && depth <= J.MAX_DEPTH
    ensures var (text, rest) := J.ParseString(J.SkipBlank(s)[1..], "").value; Reads(s, depth, before, t, J.Str(text), rest)
  {
    hide J.SkipBlank, J.ParseString, PiecesText, PiecesMean;
    var u := J.SkipBlank(s);
    var ps := StringAccepted(u[1..], "");
    t := Quoted(ps);
    var rest := J.ParseString(u[1..], "").value.1;
    assert u == "\"" + u[1..];
    assert "\"" + (PiecesText(ps) + ("\"" + rest)) == "\"" + PiecesText(ps) + "\"" + rest;
    assert "" + PiecesMean(ps) == PiecesMean(ps);
  }

  lemma FiguredAccepted(s: string, depth: nat, before: string) returns (t: Tree)
    requires var u := J.SkipBlank(s); u != "" && (u[0] == '-' || D.IsDigit(u[0])) && J.ParseNumber(u).Ok?
    requires J.AllBlank(before) && s == before + J.SkipBlank(s) && depth <= J.MAX_DEPTH
    ensures var (n, rest) := J.ParseNumber(J.SkipBlank(s)).value; Reads(s, depth, before, t, J.Num(n), rest)
  {
    hide J.SkipBlank, J.ParseNumber, FigureText, FigureMeans;
    var f := FigureAccepted(J.SkipBlank(s));
    t := Figured(f);
  }

  lemma {:induction false} ListAccepted(s: string, depth: nat, before: string) returns (t: Tree)
    requires var u := J.SkipBlank(s); u != "" && u[0] == '[' && P.AfterBracket(u[1..], depth).Ok?
    requires J.AllBlank(before) && s == before + J.SkipBlank(s) && depth <= J.MAX_DEPTH
    ensures var (v, rest) := P.AfterBracket(J.SkipBlank(s)[1..], depth).value; Reads(s, depth, before, t, v, rest)
    decreases |s|, 0, 0
  {
    hide J.SkipBlank, J.ParseItems, ItemsText, ItemProper, ItemsMean, ItemsHeight;
    var u := J.SkipBlank(s);
    var inner := u[1..];
    var w := J.SkipBlank(inner);
    assert u == "[" + inner;
    if w != "" && w[0] == ']' {
      var blank := BlanksOf(inner);
      t := List(blank, []);
      NoItems();
      assert w == "]" + w[1..];
      assert "[" + (blank + ("]" + w[1..])) == "[" + blank + "]" + w[1..];
    } else {
      ItemsBlankBefore(inner, depth, []);
      var items := ItemsAccepted(inner, depth, []);
      t := List("", items);
      var rest := J.ParseItems(inner, depth, []).value.1;
      assert "[" + (ItemsText(items) + ("]" + rest)) == "[" + ItemsText(items) + "]" + rest;
      assert [] + ItemsMean(items) == ItemsMean(items);
    }
  }

  lemma {:induction false} ItemsAccepted(s: string, depth: nat, done: seq<J.Value>) returns (items: seq<Item>)
    requires J.ParseItems(s, depth, done).Ok? && depth <= J.MAX_DEPTH
    ensures items != [] && forall i :: 0 <= i < |items| ==> ItemProper(items[i])
    ensures var (v, rest) := J.ParseItems(s, depth, done).value;
      && v == J.Array(done + ItemsMean(items)) && depth + ItemsHeight(items) <= J.MAX_DEPTH
      && s == ItemsText(items) + ("]" + rest)
    decreases |s|, 1
  {
    hide J.ParseOne, J.SkipBlank, Means, Height, ItemText;
    var (v, after) := J.ParseOne(s, depth + 1).value;
    var before, t := TreeAccepted(s, depth + 1);
    var blank := BlanksOf(after);
    var u := J.SkipBlank(after);
    var item := Item(before, t, blank);
    ItemAccepted(s, item, v, after, u);
    ItemFirst(item);
    if u[0] == ']' {
      items := [item];
      OneItem(item, u[1..]);
      assert u == "]" + u[1..];
    } else {
      var more := ItemsAccepted(u[1..], depth, done + [v]);
      items := [item] + more;
      ItemsCons(item, more);
      var close := "]" + J.ParseItems(s, depth, done).value.1;
      assert u == "," + u[1..];
      ItemsSplit(items, close);
      assert done + [v] + ItemsMean(more) == done + ([v] + ItemsMean(more));
    }
  }

  lemma ItemAccepted(s: string, item: Item, v: J.Value, after: string, u: string)
    requires J.AllBlank(item.before) && J.AllBlank(item.after) && Proper(item.tree) && Means(item.tree) == v
    requires s == item.before + (TreeText(item.tree) + after) && after == item.after + u
    ensures ItemProper(item) && ItemMeans(item) == v && s == ItemText(item) + u
  {
    hide TreeText, Means, Proper, J.AllBlank;
  }

  lemma OneItem(item: Item, rest: string)
    requires ItemProper(item)
    ensures ItemsText([item]) == ItemText(item) && ItemsMean([item]) == [ItemMeans(item)] && ItemsHeight([item]) == 1 + ItemHeight(item)
  {
    hide ItemText, ItemMeans, ItemHeight, ItemProper;
    var items := [item];
    assert items[1..] == [] && ItemText(item) + "" == ItemText(item);
    assert ItemsMean(items) == [ItemMeans(items[0])] + ItemsMean(items[1..]);
    assert ItemsHeight(items) == J.Larger(1 + ItemHeight(items[0]), ItemsHeight(items[1..]));
  }

  lemma ItemsCons(item: Item, more: seq<Item>)
    requires more != [] && ItemProper(item) && forall i :: 0 <= i < |more| ==> ItemProper(more[i])
    ensures var items := [item] + more;
      && (forall i :: 0 <= i < |items| ==> ItemProper(items[i]))
      && ItemsMean(items) == [ItemMeans(item)] + ItemsMean(more)
      && ItemsHeight(items) == J.Larger(1 + ItemHeight(item), ItemsHeight(more)) && items[1..] == more
  {
    hide ItemMeans, ItemHeight, ItemProper;
    var items := [item] + more;
    assert items[1..] == more;
  }

  // ---- objects ----

  lemma KeyAccepted(s: string) returns (before: string, ps: seq<Piece>, colon: string)
    requires P.KeyOf(s).Ok?
    ensures J.AllBlank(before) && J.AllBlank(colon) && PiecesProper(ps) && P.KeyOf(s).value.0 == PiecesMean(ps)
    ensures s == before + "\"" + PiecesText(ps) + "\"" + colon + ":" + P.KeyOf(s).value.1
    ensures |P.KeyOf(s).value.1| < |s|
  {
    hide J.SkipBlank, J.ParseString, PiecesText, PiecesMean;
    before := BlanksOf(s);
    var u := J.SkipBlank(s);
    ps := StringAccepted(u[1..], "");
    var after := J.ParseString(u[1..], "").value.1;
    colon := BlanksOf(after);
    var c := J.SkipBlank(after);
    assert u == "\"" + u[1..] && c == ":" + c[1..];
    assert "" + PiecesMean(ps) == PiecesMean(ps);
    KeyGlue(before, PiecesText(ps), colon, c[1..]);
  }

  lemma KeyGlue(a: string, b: string, c: string, d: string)
    ensures a + ("\"" + (b + ("\"" + (c + (":" + d))))) == a + "\"" + b + "\"" + c + ":" + d
  {
  }

  lemma {:induction false} RecordAccepted(s: string, depth: nat, before: string) returns (t: Tree)
    requires var u := J.SkipBlank(s); u != "" && u[0] == '{' && P.AfterBrace(u[1..], depth).Ok?
    requires J.AllBlank(before) && s == before + J.SkipBlank(s) && depth <= J.MAX_DEPTH
    ensures var (v, rest) := P.AfterBrace(J.SkipBlank(s)[1..], depth).value; Reads(s, depth, before, t, v, rest)
    decreases |s|, 0, 0
  {
    hide J.SkipBlank, J.ParseMembers, MembersText, MemberProper, MembersMean, MembersHeight;
    var u := J.SkipBlank(s);
    var inner := u[1..];
    var w := J.SkipBlank(inner);
    assert u == "{" + inner;
    if w != "" && w[0] == '}' {
      var blank := BlanksOf(inner);
      t := Record(blank, []);
      NoItems();
      assert w == "}" + w[1..];
      assert "{" + (blank + ("}" + w[1..])) == "{" + blank + "}" + w[1..];
    } else {
      MembersBlankBefore(inner, depth, []);
      var members := MembersAccepted(inner, depth, []);
      t := Record("", members);
      var rest := J.ParseMembers(inner, depth, []).value.1;
      assert "{" + (MembersText(members) + ("}" + rest)) == "{" + MembersText(members) + "}" + rest;
    }
  }

  lemma {:induction false} MembersAccepted(s: string, depth: nat, done: J.Members) returns (members: seq<Member>)
    requires J.ParseMembers(s, depth, done).Ok? && depth <= J.MAX_DEPTH
    ensures members != [] && forall i :: 0 <= i < |members| ==> MemberProper(members[i])
    ensures var (v, rest) := J.ParseMembers(s, depth, done).value;
      && v == J.Object(MembersMean(done, members)) && depth + MembersHeight(members) <= J.MAX_DEPTH
      && s == MembersText(members) + ("}" + rest)
    decreases |s|, 1
  {
    hide J.ParseOne, J.SkipBlank, J.ParseMembers, P.KeyOf, Means, Height, ItemText, MemberText, OrderedMap.Put, MemberProper, ItemProper, MembersText;
    P.MembersByKey(s, depth, done);
    var (key, text) := P.KeyOf(s).value;
    var start, ps, colon := KeyAccepted(s);
    var (v, after) := J.ParseOne(text, depth + 1).value;
    var before, t := TreeAccepted(text, depth + 1);
    var blank := BlanksOf(after);
    var u := J.SkipBlank(after);
    var m := Member(start, ps, colon, Item(before, t, blank));
    MemberAccepted(s, m, key, v, text, after, u);
    MemberFirst(m);
    var more := OrderedMap.Put(done, key, v);
    if u[0] == '}' {
      members := [m];
      OneMember(done, m);
      assert u == "}" + u[1..];
    } else {
      var others := MembersAccepted(u[1..], depth, more);
      members := [m] + others;
      MembersCons(done, m, others);
      assert u == "," + u[1..];
      MembersSplit(members, "}" + J.ParseMembers(s, depth, done).value.1);
    }
  }

  lemma MemberAccepted(s: string, m: Member, key: string, v: J.Value, text: string, after: string, u: string)
    requires J.AllBlank(m.before) && J.AllBlank(m.colon) && PiecesProper(m.key) && key == PiecesMean(m.key)
    requires s == m.before + "\"" + PiecesText(m.key) + "\"" + m.colon + ":" + text
    requires J.AllBlank(m.item.before) && J.AllBlank(m.item.after) && Proper(m.item.tree) && Means(m.item.tree) == v
    requires text == m.item.before + (TreeText(m.item.tree) + after) && after == m.item.after + u
    ensures MemberProper(m) && KeyMeans(m) == key && MemberMeans(m) == v && s == MemberText(m) + u
  {
    ItemAccepted(text, m.item, v, after, u);
    hide TreeText, Means, Proper, J.AllBlank, PiecesText, PiecesMean, ItemText;
    Glue(m.before + "\"" + PiecesText(m.key) + "\"" + m.colon + ":", ItemText(m.item), u);
  }

  lemma OneMember(done: J.Members, m: Member)
    requires MemberProper(m)
    ensures MembersText([m]) == MemberText(m) && MembersMean(done, [m]) == OrderedMap.Put(done, KeyMeans(m), MemberMeans(m))
    ensures MembersHeight([m]) == 1 + MemberHeight(m)
  {
    hide MemberText, MemberMeans, KeyMeans, MemberHeight, MemberProper, OrderedMap.Put;
    var members := [m];
    LastMember(done, members);
    assert members[1..] == [] && MemberText(m) + "" == MemberText(m);
    assert MembersHeight(members) == J.Larger(1 + MemberHeight(members[0]), MembersHeight(members[1..]));
  }

  lemma MembersCons(done: J.Members, m: Member, more: seq<Member>)
    requires more != [] && MemberProper(m) && forall i :: 0 <= i < |more| ==> MemberProper(more[i])
    ensures var members := [m] + more;
      && (forall i :: 0 <= i < |members| ==> MemberProper(members[i]))
      && MembersMean(done, members) == MembersMean(OrderedMap.Put(done, KeyMeans(m), MemberMeans(m)), more)
      && MembersHeight(members) == J.Larger(1 + MemberHeight(m), MembersHeight(more)) && members[1..] == more
  {
    hide MemberMeans, KeyMeans, MemberHeight, MemberProper, OrderedMap.Put;
    var members := [m] + more;
    assert members[1..] == more;
  }

  // ---------------------------------------------------------------- whole inputs

  predicate AllWhite(s: string) {
    forall i :: 0 <= i < |s| ==> J.White(s[i])
  }

  lemma {:induction false} FrontTrimmed(before: string, s: string)
    requires AllWhite(before)
    ensures J.Trim(before + s) == J.Trim(s)
  {
    hide J.White;
    if before == "" {
      assert before + s == s;
    } else {
      assert (before + s)[0] == before[0] && (before + s)[1..] == before[1..] + s;
      FrontTrimmed(before[1..], s);
    }
  }

  lemma {:induction false} BackTrimmed(s: string, after: string)
    requires AllWhite(after) && s != "" && !J.White(s[0]) && !J.White(s[|s| - 1])
    ensures J.Trim(s + after) == s
  {
    hide J.White;
    if after == "" {
      assert s + after == s;
    } else {
      var n := |after| - 1;
      assert (s + after)[0] == s[0] && (s + after)[|s| + n] == after[n] && (s + after)[..|s| + n] == s + after[..n];
      BackTrimmed(s, after[..n]);
    }
  }

  lemma Trimmed(before: string, s: string, after: string)
    requires AllWhite(before) && AllWhite(after) && s != "" && !J.White(s[0]) && !J.White(s[|s| - 1])
    ensures J.Trim(before + s + after) == s
  {
    hide J.Trim, J.White;
    Glue(before, s, after);
    FrontTrimmed(before, s + after);
    BackTrimmed(s, after);
  }

  lemma TrimStep(s: string)
    ensures J.Trim(s) ==
      if s != "" && J.White(s[0]) then J.Trim(s[1..]) else if s != "" && J.White(s[|s| - 1]) then J.Trim(s[..|s| - 1]) else s
  {
    hide J.White;
  }

  lemma FrontGrows(a: string, b: string, c: string, d: string)
    ensures a + (b + c + d) == a + b + c + d && a + b + c + d == a + b + (c + d)
  {
  }

  lemma {:induction false} TrimParts(s: string) returns (before: string, after: string)
    ensures AllWhite(before) && AllWhite(after) && s == before + J.Trim(s) + after
    ensures J.Trim(s) != "" ==> !J.White(J.Trim(s)[0]) && !J.White(J.Trim(s)[|J.Trim(s)| - 1])
    decreases |s|
  {
    hide J.White, J.Trim;
    TrimStep(s);
    if s != "" && J.White(s[0]) {
      before, after := TrimParts(s[1..]);
      assert s == [s[0]] + s[1..];
      FrontGrows([s[0]], before, J.Trim(s), after);
      before := [s[0]] + before;
    } else if s != "" && J.White(s[|s| - 1]) {
      before, after := TrimParts(s[..|s| - 1]);
      assert s == s[..|s| - 1] + [s[|s| - 1]];
      FrontGrows(before, J.Trim(s), after, [s[|s| - 1]]);
      after := after + [s[|s| - 1]];
    } else {
      before, after := "", "";
    }
  }

  lemma BlankWhite(c: char)
    ensures J.Blank(c) ==> J.White(c)
  {
  }

  // A value neither starts nor ends with white space.
  lemma TreeSolid(t: Tree)
    requires Proper(t)
    ensures var s := TreeText(t); s != "" && !J.White(s[0]) && !J.White(s[|s| - 1])
  {
    hide ItemsText, MembersText, PiecesText, FigureMeans;
    if t.Figured? { FigureSolid(t.figure); }
  }

  lemma FigureSolid(f: Figure)
    requires Spelled(f)
    ensures var s := FigureText(f); s != "" && !J.White(s[0]) && !J.White(s[|s| - 1])
  {
    var a, b, c, d := if f.minus then "-" else "", f.digits, FractionText(f.fraction), ExponentText(f.exponent);
    assert Solid(a) && Solid(b) && Solid(c) && Solid(d);
    var s := FigureText(f);
    assert Solid(s) by { SolidJoin(a, b); SolidJoin(a + b, c); SolidJoin(a + b + c, d); }
    assert J.White(s[0]) ==> false;
  }

  predicate Solid(s: string) {
    forall i :: 0 <= i < |s| ==> !J.White(s[i])
  }

  lemma SolidJoin(a: string, b: string)
    requires Solid(a) && Solid(b)
    ensures Solid(a + b)
  {
  }

  // White space, a value and white space.
  ghost predicate Spells(input: string, before: string, t: Tree, after: string) {
    AllWhite(before) && AllWhite(after) && Proper(t) && input == before + TreeText(t) + after
  }

  // Text of the grammar has its value if it is not nested too deep.
  lemma TextMeans(input: string, before: string, t: Tree, after: string)
    requires Spells(input, before, t, after)
    ensures J.ParseValue(input) == if Height(t) <= J.MAX_DEPTH then Ok(Means(t)) else Err(J.TooDeep)
  {
    hide TreeText, Means, Height, J.Trim, J.ParseOne, J.White, Proper;
    TreeSolid(t);
    Trimmed(before, TreeText(t), after);
    assert TreeText(t) + "" == TreeText(t);
    TreeRead(t, 0, "");
  }

  // Whatever is accepted is text of the grammar, and has its value.
  lemma AcceptedSpells(input: string) returns (before: string, t: Tree, after: string)
    requires J.ParseValue(input).Ok?
    ensures Spells(input, before, t, after) && Height(t) <= J.MAX_DEPTH && J.ParseValue(input) == Ok(Means(t))
  {
    hide TreeText, Means, Height, J.Trim, J.ParseOne, J.SkipBlank, J.White, Proper, AllWhite, J.AllBlank;
    before, after := TrimParts(input);
    var s := J.Trim(input);
    var blank, tree := TreeAccepted(s, 0);
    t := tree;
    var rest := J.ParseOne(s, 0).value.1;
    var tail := BlanksOf(rest);
    assert tail == rest by { assert tail + "" == tail; }
    NoBlanks(s, blank, TreeText(t), rest);
    assert s == TreeText(t);
  }

  lemma NoBlanks(s: string, before: string, text: string, rest: string)
    requires J.AllBlank(before) && J.AllBlank(rest) && s == before + (text + rest) && s != ""
    requires !J.White(s[0]) && !J.White(s[|s| - 1])
    ensures before == "" && rest == "" && s == text
  {
    assert before != "" ==> s[0] == before[0];
    assert rest != "" ==> s[|s| - 1] == rest[|rest| - 1];
    BlankWhite(s[0]);
    BlankWhite(s[|s| - 1]);
  }

  ghost predicate Denotes(t: Tree, v: J.Value) {
    Proper(t) && Means(t) == v && Height(t) <= J.MAX_DEPTH
  }

  // The parser gives a value exactly to the text of the grammar that has that value, up to the depth limit.
  lemma Language(input: string, v: J.Value)
    ensures J.ParseValue(input) == Ok(v) <==> exists before, t, after :: Spells(input, before, t, after) && Denotes(t, v)
  {
    hide J.ParseValue, Height, Means, Spells, Proper;
    if J.ParseValue(input) == Ok(v) {
      var before, t, after := AcceptedSpells(input);
      assert Proper(t) by { SpellsProper(input, before, t, after); }
      assert Spells(input, before, t, after) && Denotes(t, v);
    }
    if before, t, after :| Spells(input, before, t, after) && Denotes(t, v) {
      TextMeans(input, before, t, after);
    }
  }

  lemma SpellsProper(input: string, before: string, t: Tree, after: string)
    requires Spells(input, before, t, after)
    ensures Proper(t)
  {
  }
}
