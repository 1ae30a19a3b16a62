// What the finished module holds: the code of `__main` and of the last
// definition of every function, each under its own index.
module IrLink {
  import opened Syntax
  import opened IrMachine
  import opened IrCodegen
  import opened IrRelation

  type Index = map<string, nat>

  function Placeholder(name: string, params: nat): Function {
    Function(name, params, 0, [])
  }

  ghost predicate Distinct(fns: Index, size: nat) {
    && (forall x | x in fns :: fns[x] < size)
    && (forall x, y | x in fns && y in fns && x != y :: fns[x] != fns[y])
  }

  // Names the compiler registers besides the program's own.
  function Builtins(library: seq<Function>): set<string> {
    {"__main"} + set i | 0 <= i < |library| :: library[i].name
  }

  lemma BuiltinsNone(library: seq<Function>)
    ensures Builtins(library[..0]) == {"__main"}
  {
  }

  lemma BuiltinsMore(library: seq<Function>, i: nat)
    requires i < |library|
    ensures Builtins(library[..i + 1]) == Builtins(library[..i]) + {library[i].name}
  {
    var a, b := library[..i + 1], library[..i];
    forall x | x in Builtins(a) ensures x in Builtins(b) + {library[i].name} {
      if x != "__main" {
        var j :| 0 <= j < |a| && a[j].name == x;
        if j < i { assert b[j] == a[j]; }
      }
    }
    forall x | x in Builtins(b) + {library[i].name} ensures x in Builtins(a) {
      if x == library[i].name {
        assert a[i].name == x;
      } else if x != "__main" {
        var j :| 0 <= j < |b| && b[j].name == x;
        assert a[j] == b[j];
      }
    }
  }

  ghost predicate HasCode(fns: Index, m: Module, decl: FnDecl) {
    && decl.name in fns && fns[decl.name] < |m.functions|
    && exists strings, globals :: CompiledFrom(Unit(fns, false), m, decl, fns[decl.name], strings, globals)
  }

  ghost predicate MainFrom(fns: Index, m: Module, p: Program, strings: seq<string>) {
    var out := GenMain(Unit(fns, true), p, strings);
    && out.Some? && "__main" in fns && fns["__main"] < |m.functions|
    && m.functions[fns["__main"]] == Function("__main", 0, |out.value.env.locals|, out.value.code)
    && out.value.env.strings <= m.strings && out.value.env.globals <= m.globals
  }

  // The state of linking after the first `i` statements; only a function called `__main` displaces the main code.
  ghost predicate Linking(fns: Index, m: Module, p: Program, i: nat)
    requires i <= |p|
  {
    && (forall f | f in Functions(p[..i]) :: HasCode(fns, m, Functions(p[..i])[f]))
    && ("__main" !in Functions(p[..i]) ==> exists strings :: MainFrom(fns, m, p, strings))
  }

  ghost predicate IsCompiled(fns: Index, m: Module, p: Program, library: seq<Function>) {
    && fns.Keys == Builtins(library) + Functions(p).Keys
    && (forall f | f in Functions(p) :: HasCode(fns, m, Functions(p)[f]))
    && ("__main" !in Functions(p) ==> fns["__main"] == 0 && exists strings :: MainFrom(fns, m, p, strings))
  }

  lemma {:induction false} FunctionsPrefix(p: Program, i: nat)
    requires i <= |p|
    ensures Functions(p[..i]).Keys <= Functions(p).Keys
    decreases |p| - i
  {
    if i < |p| {
      FunctionsPrefix(p, i + 1);
      assert p[..i + 1][..i] == p[..i];
    } else {
      assert p[..i] == p;
    }
  }

  lemma FunctionKnown(p: Program, i: nat)
    requires i < |p| && p[i].FnDef?
    ensures p[i].decl.name in Functions(p)
    ensures Functions(p[..i + 1]) == Functions(p[..i])[p[i].decl.name := p[i].decl]
  {
    FunctionsPrefix(p, i + 1);
    assert p[..i + 1][..i] == p[..i];
  }

  ghost predicate Extends(m: Module, m': Module, at: nat) {
    && |m'.functions| == |m.functions| && m.strings <= m'.strings && m.globals <= m'.globals
    && (forall j | 0 <= j < |m.functions| && j != at :: m'.functions[j] == m.functions[j])
  }

  lemma CodeKept(fns: Index, m: Module, m': Module, decl: FnDecl, at: nat)
    requires HasCode(fns, m, decl) && Extends(m, m', at) && fns[decl.name] != at
    ensures HasCode(fns, m', decl)
  {
    var ss, gs :| CompiledFrom(Unit(fns, false), m, decl, fns[decl.name], ss, gs);
    assert CompiledFrom(Unit(fns, false), m', decl, fns[decl.name], ss, gs);
  }

  // Compiling one more definition puts its code in its slot and keeps all other code.
  lemma LinkMore(fns: Index, m: Module, m': Module, p: Program, i: nat)
    requires i < |p| && p[i].FnDef? && Linking(fns, m, p, i) && Distinct(fns, |m.functions|) && p[i].decl.name in fns
    requires var decl := p[i].decl;
      var out := GenFunction(Unit(fns, false), decl, m.strings, m.globals);
      && out.Some? && m'.strings == out.value.env.strings && m'.globals == out.value.env.globals
      && m'.functions == m.functions[fns[decl.name] := Function(decl.name, |decl.params|, |out.value.env.locals|, out.value.code)]
    ensures Linking(fns, m', p, i + 1)
  {
    hide GenBlock, GenMain;
    var decl := p[i].decl;
    var at := fns[decl.name];
    FunctionKnown(p, i);
    assert CompiledFrom(Unit(fns, false), m', decl, at, m.strings, m.globals);
    assert Extends(m, m', at);
    var before, after := Functions(p[..i]), Functions(p[..i + 1]);
    forall f | f in after ensures HasCode(fns, m', after[f]) {
      if f != decl.name {
        CodeKept(fns, m, m', before[f], at);
      }
    }
    if "__main" !in after {
      var strings :| MainFrom(fns, m, p, strings);
      assert MainFrom(fns, m', p, strings);
    }
  }

  lemma LinkSkip(fns: Index, m: Module, p: Program, i: nat)
    requires i < |p| && !p[i].FnDef? && Linking(fns, m, p, i)
    ensures Linking(fns, m, p, i + 1)
  {
    assert p[..i + 1][..i] == p[..i];
  }

  lemma LinkMain(fns: Index, m: Module, p: Program, strings: seq<string>)
    requires MainFrom(fns, m, p, strings)
    ensures Linking(fns, m, p, 0)
  {
  }

  lemma LinkDone(fns: Index, m: Module, p: Program, library: seq<Function>)
    requires Linking(fns, m, p, |p|) && fns.Keys == Builtins(library) + Functions(p).Keys
    requires "__main" in fns && ("__main" !in Functions(p) ==> fns["__main"] == 0)
    ensures IsCompiled(fns, m, p, library)
  {
    assert p[..|p|] == p;
  }

  // ---- the library ----

  // The first library function of its name, which nothing displaces.
  predicate Stands(library: seq<Function>, k: nat, displaced: set<string>)
    requires k < |library|
  {
    && library[k].name != "__main" && library[k].name !in displaced
    && forall j | 0 <= j < k :: library[j].name != library[k].name
  }

  // Each library function that is not displaced is in the list, unchanged, under its registered index.
  ghost predicate LibraryKept(fns: Index, functions: seq<Function>, library: seq<Function>, displaced: set<string>) {
    forall k: nat | k < |library| && Stands(library, k, displaced) ::
      library[k].name in fns && fns[library[k].name] < |functions| && functions[fns[library[k].name]] == library[k]
  }

  // The functions of other names than these are where they were.
  ghost predicate OthersKept(fns: Index, before: seq<Function>, after: seq<Function>, changed: set<string>) {
    |before| == |after| && forall x | x in fns && x !in changed && fns[x] < |before| :: before[fns[x]] == after[fns[x]]
  }

  // One more library function, added unless its name is taken.
  lemma LibraryMore(fns: Index, fns': Index, functions: seq<Function>, functions': seq<Function>, library: seq<Function>, i: nat)
    requires i < |library| && LibraryKept(fns, functions, library[..i], {}) && fns.Keys == Builtins(library[..i])
    requires if library[i].name in fns then fns' == fns && functions' == functions
             else fns' == fns[library[i].name := |functions|] && functions' == functions + [library[i]]
    ensures LibraryKept(fns', functions', library[..i + 1], {})
  {
    hide Builtins;
    var all, some := library[..i + 1], library[..i];
    forall k: nat | k < |all| && Stands(all, k, {})
      ensures all[k].name in fns' && fns'[all[k].name] < |functions'| && functions'[fns'[all[k].name]] == all[k]
    {
      if k < i {
        assert some[k] == all[k] && forall j | 0 <= j < k :: some[j] == all[j];
        assert Stands(some, k, {});
      } else {
        BuiltinsFirst(library, i);
      }
    }
  }

  lemma BuiltinsFirst(library: seq<Function>, i: nat)
    requires i < |library| && Stands(library[..i + 1], i, {})
    ensures library[i].name !in Builtins(library[..i])
  {
    var all := library[..i + 1];
    assert forall j | 0 <= j < i :: all[j] == library[..i][j];
  }

  // A function of the program takes its name from the library.
  lemma LibraryDisplaced(fns: Index, functions: seq<Function>, library: seq<Function>, displaced: set<string>, f: Function)
    requires LibraryKept(fns, functions, library, displaced)
    ensures LibraryKept(fns[f.name := |functions|], functions + [f], library, displaced + {f.name})
  {
    forall k: nat | k < |library| && Stands(library, k, displaced + {f.name})
      ensures library[k].name != f.name && library[k].name in fns && fns[library[k].name] < |functions| && functions[fns[library[k].name]] == library[k]
    {
      assert Stands(library, k, displaced);
    }
  }

  lemma LibraryLater(fns: Index, before: seq<Function>, after: seq<Function>, library: seq<Function>, displaced: set<string>, changed: set<string>)
    requires LibraryKept(fns, before, library, displaced) && OthersKept(fns, before, after, changed) && changed <= displaced + {"__main"}
    ensures LibraryKept(fns, after, library, displaced)
  {
    hide Stands;
    forall k: nat | k < |library| && Stands(library, k, displaced)
      ensures library[k].name !in changed
    {
      StandsApart(library, k, displaced);
    }
  }

  lemma StandsApart(library: seq<Function>, k: nat, displaced: set<string>)
    requires k < |library| && Stands(library, k, displaced)
    ensures library[k].name !in displaced + {"__main"}
  {
  }

  lemma OneChanged(fns: Index, functions: seq<Function>, name: string, f: Function)
    requires Distinct(fns, |functions|) && name in fns
    ensures OthersKept(fns, functions, functions[fns[name] := f], {name})
  {
  }

  lemma OthersJoin(fns: Index, a: seq<Function>, b: seq<Function>, c: seq<Function>, first: set<string>, second: set<string>)
    requires OthersKept(fns, a, b, first) && OthersKept(fns, b, c, second)
    ensures OthersKept(fns, a, c, first + second)
  {
  }

  lemma FunctionStrings(u: Unit, decl: FnDecl, strings: seq<string>, globals: seq<string>)
    ensures var out := GenFunction(u, decl, strings, globals); out.Some? ==> strings <= out.value.env.strings
  {
    hide GenBlock, ParamSlots, Good, Visible;
  }

  lemma MainStrings(u: Unit, p: Program, strings: seq<string>)
    ensures var out := GenMain(u, p, strings); out.Some? ==> strings <= out.value.env.strings
  {
    hide GenStmts, Good, Visible;
  }

  lemma NothingKept(fns: Index, functions: seq<Function>, library: seq<Function>)
    ensures LibraryKept(fns, functions, library[..0], {})
  {
  }

  lemma NothingChanged(fns: Index, functions: seq<Function>, changed: set<string>)
    ensures OthersKept(fns, functions, functions, changed)
  {
  }

  lemma InRange(fns: Index, size: nat, name: string)
    requires Distinct(fns, size) && name in fns
    ensures fns[name] < size
  {
  }

  lemma OtherChanged(fns: Index, a: seq<Function>, b: seq<Function>, c: seq<Function>, changed: set<string>, name: string)
    requires OthersKept(fns, a, b, changed) && name in changed && name in fns && Distinct(fns, |b|)
    requires |c| == |b| && fns[name] < |b| && c == b[fns[name] := c[fns[name]]]
    ensures OthersKept(fns, a, c, changed)
  {
    OneChanged(fns, b, name, c[fns[name]]);
    OthersJoin(fns, a, b, c, changed, {name});
    assert changed + {name} == changed;
  }

  // The main code in its slot, and what it does not touch.
  lemma MainLinked(fns: Index, m: Module, registered: seq<Function>, p: Program, strings: seq<string>)
    requires Distinct(fns, |registered|) && "__main" in fns
    requires var out := GenMain(Unit(fns, true), p, strings);
      && out.Some? && m.strings == out.value.env.strings && m.globals == out.value.env.globals
      && m.functions == registered[fns["__main"] := Function("__main", 0, |out.value.env.locals|, out.value.code)]
    ensures Linking(fns, m, p, 0) && OthersKept(fns, registered, m.functions, {"__main"}) && strings <= m.strings
  {
    hide GenMain;
    var out := GenMain(Unit(fns, true), p, strings).value;
    assert MainFrom(fns, m, p, strings);
    LinkMain(fns, m, p, strings);
    OneChanged(fns, registered, "__main", Function("__main", 0, |out.env.locals|, out.code));
    MainStrings(Unit(fns, true), p, strings);
  }
}
