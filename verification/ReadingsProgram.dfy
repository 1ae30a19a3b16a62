// Whole programs: from the interpreter's run to the compiler's reading of it.
module ReadingsProgram {
  import opened Syntax
  import opened Values
  import opened Semantics
  import opened Readings
  import opened ReadingsSame
  import opened ReadingsClean
  import N = Interpreter

  function Source(prims: Prims, p: Program): N.Ctx {
    N.Ctx(prims, Functions(p), map[])
  }

  function Compiled(prims: Prims, p: Program, builtins: set<string>, mode: Mode): Ctx {
    Ctx(prims, Functions(p), builtins, mode, true)
  }

  // The names a compiler must not take for functions.
  ghost predicate Apart(k: Rules, p: Program, builtins: set<string>) {
    && (forall x | x in k.shared + {N.NONE} :: x !in Functions(p) && x !in builtins)
    && (k.mode.Vm? ==> k.shared == {})
  }

  ghost predicate TameRun(prims: Prims, k: Rules, p: Program, fuel: nat) {
    TameStmts(Source(prims, p), k, Outermost, fuel, N.Code(p), N.Initial())
  }

  // Definitions do nothing where they stand.
  lemma {:induction false} CodeSame(d: Ctx, fuel: nat, p: Program, t: State)
    ensures EvalStmts(d, fuel, N.Code(p), t) == EvalStmts(d, fuel, p, t)
  {
    hide N.Code, EvalStmts;
    if p == [] {
      NoCode();
    } else {
      CodeFirst(p);
      StmtsMean(d, fuel, p, t);
      var r := EvalStmt(d, fuel, p[0], t);
      CodeSame(d, fuel, p[1..], r.st);
      if p[0].FnDef? {
        Definition(d, fuel, p[0], t);
      } else {
        assert ([p[0]] + N.Code(p[1..]))[1..] == N.Code(p[1..]);
        StmtsMean(d, fuel, N.Code(p), t);
      }
    }
  }

  lemma NoCode()
    ensures N.Code([]) == []
  {
  }

  lemma CodeFirst(p: Program)
    requires p != []
    ensures N.Code(p) == if p[0].FnDef? then N.Code(p[1..]) else [p[0]] + N.Code(p[1..])
  {
  }

  lemma StmtsMean(d: Ctx, fuel: nat, ss: seq<Stmt>, t: State)
    requires ss != []
    ensures var r := EvalStmt(d, fuel, ss[0], t);
      EvalStmts(d, fuel, ss, t) == if r.o.Norm? then EvalStmts(d, fuel, ss[1..], r.st) else r
  {
  }

  lemma Definition(d: Ctx, fuel: nat, st: Stmt, t: State)
    requires st.FnDef?
    ensures EvalStmt(d, fuel, st, t) == Res(Norm(Null), t)
  {
  }

  lemma StartSame(prims: Prims, k: Rules, p: Program, builtins: set<string>)
    requires prims.Valid() && Apart(k, p, builtins)
    ensures Reads(Source(prims, p), Compiled(prims, p, builtins, k.mode), k, Outermost)
    ensures Same(Outermost, k, N.Initial(), Initial())
  {
  }

  // What the interpreter does without error on a tame run of a program without `main`, the
  // compiler's reading does: the same outcome, output and top-level variables.
  lemma ProgramSame(prims: Prims, k: Rules, p: Program, builtins: set<string>, fuel: nat)
    requires prims.Valid() && Apart(k, p, builtins) && N.MAIN !in Functions(p) && TameRun(prims, k, p, fuel)
    requires !N.Execute(prims, fuel, p).o.Fail?
    ensures var x, y := N.Execute(prims, fuel, p), EvalStmts(Compiled(prims, p, builtins, k.mode), fuel, p, Initial());
      && SameOutcome(false, x.o, y.o) && y.st.out == x.st.out
      && |x.st.scopes| == |y.st.scopes| == 1 && y.st.scopes[0] == x.st.scopes[0].vars
  {
    hide TameStmts, N.EvalStmts, EvalStmts, Reads, N.Code;
    var c, d := Source(prims, p), Compiled(prims, p, builtins, k.mode);
    StartSame(prims, k, p, builtins);
    SameStmts(c, d, k, Outermost, fuel, N.Code(p), Null, N.Initial(), Initial());
    CodeSame(d, fuel, p, Initial());
  }

  // Every run of a clean program is tame.
  lemma CleanRuns(prims: Prims, n: Names, p: Program, fuel: nat)
    requires CleanProgram(n, p)
    ensures TameRun(prims, n.rules, p, fuel)
  {
    hide CleanStmts, CleanFunction;
    TamedStmts(n, Source(prims, p), Outermost, fuel, N.Code(p), Null, N.Initial());
  }

  // ---- programs with `main` ----

  predicate OnlyDeclares(p: Program) {
    forall st | st in p :: st.Let? || st.FnDef?
  }

  lemma {:induction false} DeclaredCode(p: Program)
    requires OnlyDeclares(p)
    ensures N.Code(p) == N.Declarations(p)
  {
    if p != [] {
      forall st | st in p[1..] ensures st.Let? || st.FnDef? {
        assert st in p;
      }
      DeclaredCode(p[1..]);
    }
  }

  // The interpreter goes on with `init` and `main`, compiled code does not: they agree if and only if
  // the two calls end normally, print nothing and leave the top-level variables as they were.
  lemma MainNotCalled(prims: Prims, k: Rules, p: Program, builtins: set<string>, fuel: nat)
    requires prims.Valid() && Apart(k, p, builtins) && N.MAIN in Functions(p) && OnlyDeclares(p) && TameRun(prims, k, p, fuel)
    requires N.EvalStmts(Source(prims, p), fuel, N.Declarations(p), Null, N.Initial()).o.Norm?
    requires !N.Execute(prims, fuel, p).o.Fail?
    ensures var x, y := N.Execute(prims, fuel, p), EvalStmts(Compiled(prims, p, builtins, k.mode), fuel, p, Initial());
      var s := N.EvalStmts(Source(prims, p), fuel, N.Declarations(p), Null, N.Initial()).st;
      && x == N.RunMain(Source(prims, p), fuel, s)
      && (SameOutcome(false, x.o, y.o) && y.st.out == x.st.out && y.st.scopes == [x.st.scopes[0].vars]
          <==> x.o.Norm? && x.st.out == s.out && x.st.scopes[0].vars == s.scopes[0].vars)
  {
    hide TameStmts, N.EvalStmts, EvalStmts, Reads, N.Code, N.Declarations, N.RunMain, OnlyDeclares;
    var c, d := Source(prims, p), Compiled(prims, p, builtins, k.mode);
    DeclaredCode(p);
    StartSame(prims, k, p, builtins);
    SameStmts(c, d, k, Outermost, fuel, N.Code(p), Null, N.Initial(), Initial());
    CodeSame(d, fuel, p, Initial());
    var s := N.EvalStmts(c, fuel, N.Declarations(p), Null, N.Initial()).st;
    RunMainShape(c, fuel, s);
  }

  lemma RunMainShape(c: N.Ctx, fuel: nat, s: N.State)
    requires |s.scopes| == 1
    ensures |N.RunMain(c, fuel, s).st.scopes| == 1
  {
    hide N.Invoke;
  }
}
