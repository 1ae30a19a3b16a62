// The JSON writer and parser of src/util.rs as they run: over an output buffer, and over a position.
module JsonText {
  import opened Json

  class Writer {
    var out: string

    constructor ()
      ensures out == ""
    {
      out := "";
    }

    method Indent(n: nat)
      modifies this
      ensures out == old(out) + Spaces(n)
    {
      for i := 0 to n
        invariant out == old(out) + Spaces(i)
      {
        out := out + " ";
      }
    }

    method NewLine(pretty: bool, indent: nat)
      modifies this
      ensures out == old(out) + Break(pretty, indent)
    {
      if pretty {
        out := out + "\n";
        Indent(indent);
      }
    }

    method WriteString(s: string)
      modifies this
      ensures out == old(out) + StringText(s)
    {
      hide EscapeChar;
      out := out + "\"";
      ghost var start := out;
      for i := 0 to |s|
        invariant out + EscapeAll(s[i..]) == start + EscapeAll(s)
      {
        assert s[i..][1..] == s[i + 1..];
        out := out + EscapeChar(s[i]);
      }
      assert out == start + EscapeAll(s);
      out := out + "\"";
    }

    method Write(v: Value, pretty: bool, indent: nat)
      modifies this
      ensures out == old(out) + Text(v, pretty, indent)
      decreases v, 0
    {
      match v
      case Null => out := out + "null";
      case Bool(b) => out := out + (if b then "true" else "false");
      case Num(n) => out := out + NumberText(n);
      case Str(s) => WriteString(s);
      case Array(items) => WriteArray(v, pretty, indent);
      case Object(members) => WriteObject(v, pretty, indent);
    }

    method WriteArray(v: Value, pretty: bool, indent: nat)
      requires v.Array?
      modifies this
      ensures out == old(out) + Text(v, pretty, indent)
      decreases v, 0, 0
    {
      hide Text, Break;
      var items := v.items;
      WholeArray(items, pretty, indent);
      if items == [] {
        out := out + "[]";
        return;
      }
      out := out + "[";
      ghost var start := out;
      for i := 0 to |items|
        invariant out == start + ItemsFrom(items, i, pretty, indent)
      {
        ghost var before := out;
        if i > 0 {
          out := out + ",";
        }
        NewLine(pretty, indent + 2);
        Write(items[i], pretty, indent + 2);
        ghost var piece := (if i > 0 then "," else "") + Break(pretty, indent + 2) + Text(items[i], pretty, indent + 2);
        assert out == before + piece;
        Glue(start, ItemsFrom(items, i, pretty, indent), piece);
      }
      NewLine(pretty, indent);
      out := out + "]";
    }

    method WriteObject(v: Value, pretty: bool, indent: nat)
      requires v.Object?
      modifies this
      ensures out == old(out) + Text(v, pretty, indent)
      decreases v, 0, 0
    {
      hide Text, Break, MemberText;
      var members := v.members;
      WholeObject(members, pretty, indent);
      if members == [] {
        out := out + "{}";
        return;
      }
      out := out + "{";
      ghost var start := out;
      for i := 0 to |members|
        invariant out == start + MembersFrom(members, i, pretty, indent)
      {
        ghost var before := out;
        if i > 0 {
          out := out + ",";
        }
        NewLine(pretty, indent + 2);
        WriteMember(members[i], pretty, indent + 2);
        ghost var piece := (if i > 0 then "," else "") + Break(pretty, indent + 2) + MemberText(members[i], pretty, indent + 2);
        assert out == before + piece;
        Glue(start, MembersFrom(members, i, pretty, indent), piece);
      }
      NewLine(pretty, indent);
      out := out + "}";
    }

    method WriteMember(m: (string, Value), pretty: bool, indent: nat)
      modifies this
      ensures out == old(out) + MemberText(m, pretty, indent)
      decreases m, 1
    {
      hide Text, StringText;
      WriteString(m.0);
      out := out + ":";
      if pretty {
        out := out + " ";
      }
      Write(m.1, pretty, indent);
    }
  }

  lemma Glue(a: string, b: string, c: string)
    ensures a + b + c == a + (b + c)
  {
  }

  // A piece with a comma before it, and the text after it.
  lemma CommaMoves(f: string, b: string, t: string, tail: string)
    ensures f + ("," + b + t) + tail == f + ("," + (b + t + tail))
  {
  }

  // The first i items as the loop writes them, each after its own comma.
  function ItemsFrom(items: seq<Value>, i: nat, pretty: bool, indent: nat): string
    requires i <= |items|
  {
    if i == 0 then ""
    else
      ItemsFrom(items, i - 1, pretty, indent)
      + ((if i > 1 then "," else "") + Break(pretty, indent + 2) + Text(items[i - 1], pretty, indent + 2))
  }

  function MembersFrom(members: Members, i: nat, pretty: bool, indent: nat): string
    requires i <= |members|
  {
    if i == 0 then ""
    else
      MembersFrom(members, i - 1, pretty, indent)
      + ((if i > 1 then "," else "") + Break(pretty, indent + 2) + MemberText(members[i - 1], pretty, indent + 2))
  }

  // Commas before all items but the first are commas after all items but the last.
  lemma {:induction false} ItemsAgree(items: seq<Value>, i: nat, pretty: bool, indent: nat)
    requires 0 < i <= |items|
    ensures ItemsFrom(items, i, pretty, indent) + (if i == |items| then "" else "," + ItemsText(items[i..], pretty, indent))
         == ItemsText(items, pretty, indent)
  {
    hide Text, Break;
    if i == 1 {
      assert ItemsFrom(items, 0, pretty, indent) == "";
    } else {
      ItemsAgree(items, i - 1, pretty, indent);
      var rest := items[i - 1..];
      assert rest[0] == items[i - 1] && rest[1..] == items[i..] && (|rest| == 1 <==> i == |items|);
      CommaMoves(ItemsFrom(items, i - 1, pretty, indent), Break(pretty, indent + 2), Text(items[i - 1], pretty, indent + 2),
                 if i == |items| then "" else "," + ItemsText(items[i..], pretty, indent));
    }
  }

  lemma {:induction false} MembersAgree(members: Members, i: nat, pretty: bool, indent: nat)
    requires 0 < i <= |members|
    ensures MembersFrom(members, i, pretty, indent) + (if i == |members| then "" else "," + MembersText(members[i..], pretty, indent))
         == MembersText(members, pretty, indent)
  {
    hide Text, Break, MemberText;
    if i == 1 {
      assert MembersFrom(members, 0, pretty, indent) == "";
    } else {
      MembersAgree(members, i - 1, pretty, indent);
      var rest := members[i - 1..];
      assert rest[0] == members[i - 1] && rest[1..] == members[i..] && (|rest| == 1 <==> i == |members|);
      CommaMoves(MembersFrom(members, i - 1, pretty, indent), Break(pretty, indent + 2), MemberText(members[i - 1], pretty, indent + 2),
                 if i == |members| then "" else "," + MembersText(members[i..], pretty, indent));
    }
  }

  lemma WholeArray(items: seq<Value>, pretty: bool, indent: nat)
    ensures Text(Array(items), pretty, indent) ==
      if items == [] then "[]" else "[" + ItemsFrom(items, |items|, pretty, indent) + (Break(pretty, indent) + "]")
  {
    if items != [] {
      ItemsAgree(items, |items|, pretty, indent);
      assert ItemsFrom(items, |items|, pretty, indent) + "" == ItemsFrom(items, |items|, pretty, indent);
    }
  }

  lemma WholeObject(members: Members, pretty: bool, indent: nat)
    ensures Text(Object(members), pretty, indent) ==
      if members == [] then "{}" else "{" + MembersFrom(members, |members|, pretty, indent) + (Break(pretty, indent) + "}")
  {
    if members != [] {
      MembersAgree(members, |members|, pretty, indent);
      assert MembersFrom(members, |members|, pretty, indent) + "" == MembersFrom(members, |members|, pretty, indent);
    }
  }
}
