// One compiler object for several programs: `compile` starts each of them with an empty list of globals, but
// keeps the table that maps their names to slots.
module IrReuse {
  // The globals of the module in the order of their slots, and the table of names.
  datatype Globals = Globals(list: seq<string>, table: map<string, nat>)

  function Registered(g: Globals, name: string): Globals {
    if name in g.table then g else Globals(g.list + [name], g.table[name := |g.list|])
  }

  function RegisteredAll(g: Globals, names: seq<string>): Globals {
    if names == [] then g else Registered(RegisteredAll(g, names[..|names|-1]), names[|names|-1])
  }

  predicate AllDifferent(names: seq<string>) {
    forall i, j | 0 <= i < j < |names| :: names[i] != names[j]
  }

  // Globals of which the table knows nothing get the slots from 0 on; what the table knew stays as it was.
  lemma {:induction false} NewSlots(table: map<string, nat>, names: seq<string>)
    requires AllDifferent(names) && forall y | y in names :: y !in table
    ensures var g := RegisteredAll(Globals([], table), names);
      && g.list == names
      && (forall k | 0 <= k < |names| :: names[k] in g.table && g.table[names[k]] == k)
      && (forall x | x in table :: x in g.table && g.table[x] == table[x])
      && (forall y | y in g.table :: y in table || y in names)
    decreases |names|
  {
    if names != [] {
      var n := |names| - 1;
      var before := names[..n];
      assert names == before + [names[n]];
      NewSlots(table, before);
      var g := RegisteredAll(Globals([], table), before);
      assert names[n] !in before;
      assert forall k | 0 <= k < n :: before[k] == names[k];
    }
  }

  // A name of an earlier program that the new one does not define: it shares its slot with a global of the new
  // program if and only if its slot is one of theirs; otherwise there is no such slot in the module.
  lemma StaleSlot(table: map<string, nat>, names: seq<string>, x: string)
    requires AllDifferent(names) && x in table && forall y | y in names :: y !in table
    ensures var g := RegisteredAll(Globals([], table), names);
      && x in g.table && x !in g.list
      && ((exists y | y in names :: y in g.table && g.table[y] == g.table[x]) <==> g.table[x] < |g.list|)
  {
    NewSlots(table, names);
    var g := RegisteredAll(Globals([], table), names);
    if g.table[x] < |names| {
      var y := names[g.table[x]];
      assert y in names && g.table[y] == g.table[x];
    }
  }

  // Names and slots of the new program fit together, whatever it defines, if and only if the table was empty.
  lemma {:induction false} ReuseSafe(table: map<string, nat>)
    ensures (forall names, name | name in RegisteredAll(Globals([], table), names).table :: Fits(table, names, name)) <==> table == map[]
  {
    if table == map[] {
      forall names, name | name in RegisteredAll(Globals([], table), names).table ensures Fits(table, names, name) {
        FreshFits(names, name);
      }
    } else {
      var x :| x in table;
      assert RegisteredAll(Globals([], table), []) == Globals([], table);
      assert !Fits(table, [], x);
    }
  }

  predicate Fits(table: map<string, nat>, names: seq<string>, name: string) {
    var g := RegisteredAll(Globals([], table), names);
    name in g.table && g.table[name] < |g.list| && g.list[g.table[name]] == name
  }

  lemma {:induction false} FreshFits(names: seq<string>, name: string)
    requires name in RegisteredAll(Globals([], map[]), names).table
    ensures Fits(map[], names, name)
    decreases |names|
  {
    if names != [] {
      var n := |names| - 1;
      var g := RegisteredAll(Globals([], map[]), names[..n]);
      if name in g.table { FreshFits(names[..n], name); }
    }
  }
}
