// Meaning preservation of the bytecode compiler for whole programs.
module BytecodeTheorem {
  import opened Syntax
  import opened Values
  import opened Semantics
  import opened BytecodeMachine
  import opened BytecodeGen
  import opened BytecodeRelation
  import opened BytecodeSteps
  import opened BytecodeSim
  import opened Readings
  import opened ReadingsProgram
  import N = Interpreter

  // Every top-level statement, and every function at the point of its definition, is supported.
  predicate Supports(ss: seq<Stmt>, base: nat, t: Tab)
    decreases ss
  {
    ss != [] ==>
      && OkStmt(ss[0], Toplevel)
      && (ss[0].FnDef? ==> OkFunction(ss[0].decl, t))
      && var x := GenStmt(ss[0], base, t); Supports(ss[1..], base + |x.code|, x.tab)
  }

  function EmptyTab(): Tab {
    Tab([], [], [], map[])
  }

  // The program is supported and every index and address fits its operand.
  predicate Compilable(p: Program) {
    var out := GenProgram(p);
    && Supports(p, 0, EmptyTab())
    && |out.code| < 65536 && |out.tab.constants| <= 65536 && |out.tab.locals| <= 256 && |out.tab.names| <= 65536
  }

  function ImageOf(prims: Prims, p: Program): Image {
    var out := GenProgram(p);
    Image(prims, out.tab.names, out.tab.functions)
  }

  function Start(p: Program): Config {
    var out := GenProgram(p);
    Run(Frame(Chunk(out.code, out.tab.constants), 0, []), [], map[], [])
  }

  // ---- linking ----

  lemma {:induction false} BodyFunctions(ss: seq<Stmt>, base: nat, t: Tab)
    requires OkStmts(ss, Body)
    ensures GenStmts(ss, base, t).tab.functions == t.functions
    decreases ss
  {
    hide GenExpr, GenStmt, OkExpr;
    if ss != [] {
      BodyStmtFunctions(ss[0], base, t);
      var x := GenStmt(ss[0], base, t);
      BodyFunctions(ss[1..], base + |x.code|, x.tab);
    }
  }

  lemma BodyStmtFunctions(st: Stmt, base: nat, t: Tab)
    requires OkStmt(st, Body) || (OkStmt(st, Toplevel) && !st.FnDef?)
    ensures GenStmt(st, base, t).tab.functions == t.functions
  {
    hide GenExpr, OkExpr;
    if st.Let? {
      ExprLocals(st.value, true, base, t);
    } else {
      assert OkStmt(st, Level.Nested);
      StmtLocals(st, base, t);
    }
  }

  lemma FunctionKeeps(decl: FnDecl, t: Tab)
    requires OkFunction(decl, t)
    ensures GenFunction(decl, t).tab.functions == t.functions
  {
    hide GenExpr, GenStmts, OkExpr;
    var t0 := Tab(decl.params, t.names, [], t.functions);
    BodyFunctions(decl.body.stmts, 0, t0);
    var ss := GenStmts(decl.body.stmts, 0, t0);
    if decl.body.tail.Some? {
      ExprLocals(decl.body.tail.value, true, |ss.code|, ss.tab);
    }
  }

  // Every function defined in `done` has its code in the tables.
  ghost predicate LinkedTab(prims: Prims, done: Program, t: Tab) {
    && t.functions.Keys <= Functions(done).Keys
    && forall f | f in Functions(done) :: exists t0 :: FromDecl(Image(prims, t.names, t.functions), Functions(done)[f], t0)
  }

  lemma NamesGrow(prims: Prims, done: Program, a: Tab, b: Tab)
    requires LinkedTab(prims, done, a) && a.names <= b.names && b.functions == a.functions
    ensures LinkedTab(prims, done, b)
  {
    hide GenFunction, OkFunction;
    forall f | f in Functions(done) ensures exists t0 :: FromDecl(Image(prims, b.names, b.functions), Functions(done)[f], t0) {
      var t0 :| FromDecl(Image(prims, a.names, a.functions), Functions(done)[f], t0);
      assert FromDecl(Image(prims, b.names, b.functions), Functions(done)[f], t0);
    }
  }

  // A definition adds its own code and replaces an older definition of the same name.
  lemma DefinitionLinks(prims: Prims, done: Program, st: Stmt, base: nat, t: Tab)
    requires st.FnDef? && OkFunction(st.decl, t) && LinkedTab(prims, done, t)
    ensures LinkedTab(prims, done + [st], GenStmt(st, base, t).tab)
  {
    hide GenFunction, OkFunction;
    var decl := st.decl;
    var t' := GenStmt(st, base, t).tab;
    var out := GenFunction(decl, t);
    FunctionKeeps(decl, t);
    assert (done + [st])[..|done|] == done;
    var before, after := Functions(done), Functions(done + [st]);
    assert after == before[decl.name := decl];
    forall f | f in after ensures exists t0 :: FromDecl(Image(prims, t'.names, t'.functions), after[f], t0) {
      if f == decl.name {
        assert FromDecl(Image(prims, t'.names, t'.functions), decl, t);
      } else {
        var t0 :| FromDecl(Image(prims, t.names, t.functions), before[f], t0);
        assert FromDecl(Image(prims, t'.names, t'.functions), before[f], t0);
      }
    }
  }

  lemma {:induction false} ProgramLinks(prims: Prims, done: Program, ss: seq<Stmt>, base: nat, t: Tab)
    requires Supports(ss, base, t) && LinkedTab(prims, done, t)
    ensures LinkedTab(prims, done + ss, GenStmts(ss, base, t).tab)
    decreases ss
  {
    hide GenStmt, OkStmt, OkFunction, LinkedTab;
    if ss == [] {
      assert done + ss == done;
    } else {
      var x := GenStmt(ss[0], base, t);
      if ss[0].FnDef? {
        DefinitionLinks(prims, done, ss[0], base, t);
      } else {
        BodyStmtFunctions(ss[0], base, t);
        NamesGrow(prims, done, t, x.tab);
        NoDefinition(done, ss[0]);
        SameFunctions(prims, done, done + [ss[0]], x.tab);
      }
      ProgramLinks(prims, done + [ss[0]], ss[1..], base + |x.code|, x.tab);
      assert done + [ss[0]] + ss[1..] == done + ss;
    }
  }

  lemma NoDefinition(done: Program, st: Stmt)
    requires !st.FnDef?
    ensures Functions(done + [st]) == Functions(done)
  {
    assert (done + [st])[..|done|] == done;
  }

  lemma SameFunctions(prims: Prims, a: Program, b: Program, t: Tab)
    requires LinkedTab(prims, a, t) && Functions(b) == Functions(a)
    ensures LinkedTab(prims, b, t)
  {
  }

  lemma {:induction false} SupportsOk(ss: seq<Stmt>, base: nat, t: Tab)
    requires Supports(ss, base, t)
    ensures OkStmts(ss, Toplevel)
    decreases ss
  {
    hide GenStmt, OkStmt, OkFunction;
    if ss != [] {
      var x := GenStmt(ss[0], base, t);
      SupportsOk(ss[1..], base + |x.code|, x.tab);
    }
  }

  // ---- the theorem ----

  function Context(prims: Prims, p: Program): Ctx {
    Ctx(prims, Functions(p), {}, Vm, true)
  }

  lemma LinkedProgram(prims: Prims, p: Program)
    requires Compilable(p) && prims.Valid()
    ensures Linked(World(Context(prims, p), ImageOf(prims, p)))
  {
    hide GenStmts, Supports, GenFunction, OkFunction;
    assert LinkedTab(prims, [], EmptyTab());
    ProgramLinks(prims, [], p, 0, EmptyTab());
    assert [] + p == p;
    var w := World(Context(prims, p), ImageOf(prims, p));
    forall f ensures LinkedAt(w, f) {
      if f in w.c.funs {
        var t :| FromDecl(w.m, w.c.funs[f], t);
      }
    }
  }

  // If the source run ends, so does the machine: with the same output and globals,
  // and with the returned value if the top-level code returns one.
  lemma ByteCodeRuns(prims: Prims, p: Program, fuel: nat) returns (v: Value)
    requires Compilable(p) && prims.Valid() && !EvalStmts(Context(prims, p), fuel, p, Initial()).o.Fail?
    ensures var r := EvalStmts(Context(prims, p), fuel, p, Initial());
      && (r.o.Norm? || r.o.Ret?)
      && Reach(ImageOf(prims, p), Start(p), Done(v, r.st.globals, r.st.out))
      && (r.o.Ret? ==> v == r.o.v)
  {
    hide GenStmts, EvalStmts, Supports, Linked, Reach, Segment, Encode;
    LinkedProgram(prims, p);
    SupportsOk(p, 0, EmptyTab());
    var w := World(Context(prims, p), ImageOf(prims, p));
    var out := GenStmts(p, 0, EmptyTab());
    var ch := Chunk(GenProgram(p).code, GenProgram(p).tab.constants);
    var a := Start(p);
    WholeSegment(ch.code);
    SegSplit(ch.code, 0, out.code, Encode(Stop));
    ReachRefl(w.m, a);
    InitialRel();
    var st := SimStmts(w, fuel, p, Toplevel, ch, [], a, 1, 0, EmptyTab(), [], Initial());
    var r := EvalStmts(w.c, fuel, p, Initial());
    v := if r.o.Ret? then r.o.v else TopOr(st);
    if r.o.Norm? {
      GoLeave(w.m, a, ch, [], |out.code|, st, r.st);
    }
  }

  lemma InitialRel()
    ensures Rel(Initial(), 1, [], [])
  {
    forall x ensures LocalAt([map[]], [], [], x) {
    }
  }

  // The machine is deterministic: that is its only end.
  lemma ByteCodeRunsOnly(prims: Prims, p: Program, fuel: nat, final: Config)
    requires Compilable(p) && prims.Valid() && !EvalStmts(Context(prims, p), fuel, p, Initial()).o.Fail?
    requires Reach(ImageOf(prims, p), Start(p), final) && !final.Run?
    ensures var r := EvalStmts(Context(prims, p), fuel, p, Initial());
      && (r.o.Norm? || r.o.Ret?)
      && final.Done? && final.globals == r.st.globals && final.out == r.st.out && (r.o.Ret? ==> final.v == r.o.v)
  {
    hide EvalStmts, Compilable, Reach, GenProgram;
    var v := ByteCodeRuns(prims, p, fuel);
    var r := EvalStmts(Context(prims, p), fuel, p, Initial());
    FinalUnique(ImageOf(prims, p), Start(p), Done(v, r.st.globals, r.st.out), final);
  }

  // From the interpreter to the machine: on a tame run of a program without `main`, in which every && and ||
  // has boolean operands and a right side that may be evaluated, the machine ends with the interpreter's output.
  lemma ByteCodeMatchesSource(prims: Prims, p: Program, fuel: nat, k: Rules) returns (final: Config)
    requires Compilable(p) && prims.Valid() && N.MAIN !in Functions(p)
    requires k.mode.Vm? && Apart(k, p, {}) && TameRun(prims, k, p, fuel)
    requires !N.Execute(prims, fuel, p).o.Fail?
    ensures var r := N.Execute(prims, fuel, p);
      r.o.Norm? && Reach(ImageOf(prims, p), Start(p), final) && final.Done? && final.out == r.st.out
    ensures forall other | Reach(ImageOf(prims, p), Start(p), other) && !other.Run? :: other == final
  {
    hide EvalStmts, Compilable, Reach, TameRun, Apart, N.Execute, ImageOf, Start;
    ProgramSame(prims, k, p, {}, fuel);
    var v := ByteCodeRuns(prims, p, fuel);
    var r := EvalStmts(Context(prims, p), fuel, p, Initial());
    final := Done(v, r.st.globals, r.st.out);
    forall other | Reach(ImageOf(prims, p), Start(p), other) && !other.Run? ensures other == final {
      FinalUnique(ImageOf(prims, p), Start(p), final, other);
    }
  }
}
