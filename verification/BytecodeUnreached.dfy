// A program may hold constructs the bytecode compiler has no code for, as long as its run meets none of them.
module BytecodeUnreached {
  import opened Wrappers
  import opened Syntax
  import opened Values
  import opened Semantics
  import opened BytecodeMachine
  import opened BytecodePlain
  import opened BytecodeTheorem
  import opened Readings
  import opened ReadingsSame
  import opened ReadingsProgram
  import opened ReadingsGlobals
  import N = Interpreter

  // ---- runs without break, continue, throw, block expressions, `??`, `loop` and the tail of a loop body ----

  predicate AvoidsExpr(c: Ctx, fuel: nat, e: Expr, s: State)
    decreases fuel, e, 1
  {
    match e
    case Lit(_) => true
    case Var(_) => true
    case Bin(_, l, r) =>
      AvoidsExpr(c, fuel, l, s) &&
      var x := EvalExpr(c, fuel, l, s);
      (x.o.Norm? ==> AvoidsExpr(c, fuel, r, x.st))
    case Un(_, x) => AvoidsExpr(c, fuel, x, s)
    case Call(fn, args) =>
      AvoidsArgs(c, fuel, args, s) &&
      var a := EvalArgs(c, fuel, args, s);
      (a.o.Norm? && fuel > 0 && fn in c.funs ==>
         var params := c.funs[fn].params;
         AvoidsBlock(c.(top := false), fuel - 1, c.funs[fn].body, State([ParamScope(params, Fitted(a.vs, |params|))], a.st.globals, a.st.out)))
    case If(cond, thn, els) =>
      AvoidsExpr(c, fuel, cond, s) &&
      var x := EvalExpr(c, fuel, cond, s);
      && (x.o.Norm? && c.prims.truthy(x.o.v) ==> AvoidsBlock(c, fuel, thn, x.st))
      && (x.o.Norm? && !c.prims.truthy(x.o.v) && els.Some? ==> AvoidsBlock(c, fuel, els.value, x.st))
    case BlockExpr(_) => false
    case Coalesce(_, _) => false
    case Loop(_) => false
  }

  predicate AvoidsArgs(c: Ctx, fuel: nat, args: seq<Expr>, s: State)
    decreases fuel, args, 0
  {
    args != [] ==>
      AvoidsExpr(c, fuel, args[0], s) &&
      var x := EvalExpr(c, fuel, args[0], s);
      (x.o.Norm? ==> AvoidsArgs(c, fuel, args[1..], x.st))
  }

  predicate AvoidsBlock(c: Ctx, fuel: nat, b: Block, s: State)
    decreases fuel, b, 0
  {
    AvoidsStmts(c, fuel, b.stmts, PushScope(s)) &&
    var r := EvalStmts(c, fuel, b.stmts, PushScope(s));
    (r.o.Norm? && b.tail.Some? ==> AvoidsExpr(c, fuel, b.tail.value, r.st))
  }

  predicate AvoidsLoopBody(c: Ctx, fuel: nat, b: Block, s: State)
    decreases fuel, b, 0
  {
    AvoidsStmts(c, fuel, b.stmts, PushScope(s)) && (EvalStmts(c, fuel, b.stmts, PushScope(s)).o.Norm? ==> b.tail.None?)
  }

  predicate AvoidsStmts(c: Ctx, fuel: nat, ss: seq<Stmt>, s: State)
    decreases fuel, ss, 0
  {
    ss != [] ==>
      AvoidsStmt(c, fuel, ss[0], s) &&
      var r := EvalStmt(c, fuel, ss[0], s);
      (r.o.Norm? ==> AvoidsStmts(c, fuel, ss[1..], r.st))
  }

  predicate AvoidsStmt(c: Ctx, fuel: nat, st: Stmt, s: State)
    decreases fuel, st, 1
  {
    match st
    case Let(_, e) => AvoidsExpr(c, fuel, e, s)
    case Assign(_, e) => AvoidsExpr(c, fuel, e, s)
    case Output(e) => AvoidsExpr(c, fuel, e, s)
    case ExprStmt(e) => AvoidsExpr(c, fuel, e, s)
    case While(_, _) => AvoidsWhile(c, fuel, st, s)
    case DoWhile(_, _) => AvoidsDoWhile(c, fuel, st, s)
    case Return(e) => e.Some? ==> AvoidsExpr(c, fuel, e.value, s)
    case Throw(_) => false
    case Break => false
    case Continue => false
    case FnDef(_) => true
  }

  predicate AvoidsWhile(c: Ctx, fuel: nat, st: Stmt, s: State)
    requires st.While?
    decreases fuel, st, 0
  {
    fuel > 0 ==>
      AvoidsExpr(c, fuel, st.cond, s) &&
      var x := EvalExpr(c, fuel, st.cond, s);
      (x.o.Norm? && c.prims.truthy(x.o.v) ==>
         AvoidsLoopBody(c, fuel, st.body, x.st) &&
         var b := EvalBlock(c, fuel, st.body, x.st);
         (b.o.Norm? ==> AvoidsWhile(c, fuel - 1, st, b.st)))
  }

  predicate AvoidsDoWhile(c: Ctx, fuel: nat, st: Stmt, s: State)
    requires st.DoWhile?
    decreases fuel, st, 0
  {
    fuel > 0 ==>
      AvoidsLoopBody(c, fuel, st.body, s) &&
      var b := EvalBlock(c, fuel, st.body, s);
      (b.o.Norm? ==>
         AvoidsExpr(c, fuel, st.cond, b.st) &&
         var x := EvalExpr(c, fuel, st.cond, b.st);
         (x.o.Norm? && c.prims.truthy(x.o.v) ==> AvoidsDoWhile(c, fuel - 1, st, x.st)))
  }

  // ---- there the plain form runs as the program does ----

  function PlainDecl(f: FnDecl): FnDecl {
    f.(body := PlainBlock(f.body))
  }

  function PlainFunctions(funs: map<string, FnDecl>): map<string, FnDecl> {
    map f | f in funs :: PlainDecl(funs[f])
  }

  function PlainContext(c: Ctx): Ctx {
    c.(funs := PlainFunctions(c.funs))
  }

  lemma {:induction false} ExprRuns(c: Ctx, fuel: nat, e: Expr, s: State)
    requires c.mode.Vm? && AvoidsExpr(c, fuel, e, s)
    ensures EvalExpr(PlainContext(c), fuel, PlainExpr(e), s) == EvalExpr(c, fuel, e, s) && !Readings.Jump(EvalExpr(c, fuel, e, s).o)
    decreases fuel, e, 1
  {
    hide PlainFunctions;
    match e
    case Lit(_) =>
    case Var(_) =>
    case Bin(_, l, r) =>
      ExprRuns(c, fuel, l, s);
      var x := EvalExpr(c, fuel, l, s);
      if x.o.Norm? { ExprRuns(c, fuel, r, x.st); }
    case Un(_, x) => ExprRuns(c, fuel, x, s);
    case Call(_, _) => CallRuns(c, fuel, e, s);
    case If(cond, thn, els) =>
      ExprRuns(c, fuel, cond, s);
      var x := EvalExpr(c, fuel, cond, s);
      if x.o.Norm? && c.prims.truthy(x.o.v) {
        BlockRuns(c, fuel, thn, x.st);
      } else if x.o.Norm? && els.Some? {
        BlockRuns(c, fuel, els.value, x.st);
      }
  }

  lemma {:induction false} CallRuns(c: Ctx, fuel: nat, e: Expr, s: State)
    requires e.Call? && c.mode.Vm? && AvoidsExpr(c, fuel, e, s)
    ensures EvalExpr(PlainContext(c), fuel, PlainExpr(e), s) == EvalExpr(c, fuel, e, s) && !Readings.Jump(EvalExpr(c, fuel, e, s).o)
    decreases fuel, e, 0
  {
    hide EvalExpr, EvalArgs, EvalBlock, PlainBlock, PlainArgs;
    var d := PlainContext(c);
    CallMeans(c, fuel, e, s);
    CallMeans(d, fuel, PlainExpr(e), s);
    ArgsRun(c, fuel, e.args, s);
    var a := EvalArgs(c, fuel, e.args, s);
    if a.o.Norm? && fuel > 0 && e.fn in c.funs {
      var f := c.funs[e.fn];
      BlockRuns(c.(top := false), fuel - 1, f.body, State([ParamScope(f.params, Fitted(a.vs, |f.params|))], a.st.globals, a.st.out));
    }
  }

  lemma {:induction false} ArgsRun(c: Ctx, fuel: nat, args: seq<Expr>, s: State)
    requires c.mode.Vm? && AvoidsArgs(c, fuel, args, s)
    ensures EvalArgs(PlainContext(c), fuel, PlainArgs(args), s) == EvalArgs(c, fuel, args, s) && !Readings.Jump(EvalArgs(c, fuel, args, s).o)
    decreases fuel, args, 0
  {
    hide PlainFunctions, PlainExpr, EvalExpr;
    if args != [] {
      ExprRuns(c, fuel, args[0], s);
      var x := EvalExpr(c, fuel, args[0], s);
      assert PlainArgs(args)[0] == PlainExpr(args[0]) && PlainArgs(args)[1..] == PlainArgs(args[1..]);
      if x.o.Norm? { ArgsRun(c, fuel, args[1..], x.st); }
    }
  }

  lemma {:induction false} BlockRuns(c: Ctx, fuel: nat, b: Block, s: State)
    requires c.mode.Vm? && AvoidsBlock(c, fuel, b, s)
    ensures EvalBlock(PlainContext(c), fuel, PlainBlock(b), s) == EvalBlock(c, fuel, b, s) && !Readings.Jump(EvalBlock(c, fuel, b, s).o)
    decreases fuel, b, 0
  {
    hide PlainFunctions, PlainStmts, PlainExpr, EvalStmts, EvalExpr;
    StmtsRun(c, fuel, b.stmts, PushScope(s));
    var r := EvalStmts(c, fuel, b.stmts, PushScope(s));
    if r.o.Norm? && b.tail.Some? { ExprRuns(c, fuel, b.tail.value, r.st); }
  }

  lemma {:induction false} LoopBodyRuns(c: Ctx, fuel: nat, b: Block, s: State)
    requires c.mode.Vm? && AvoidsLoopBody(c, fuel, b, s)
    ensures EvalBlock(PlainContext(c), fuel, Block(PlainStmts(b.stmts), None), s) == EvalBlock(c, fuel, b, s)
    ensures !Readings.Jump(EvalBlock(c, fuel, b, s).o)
    decreases fuel, b, 0
  {
    hide PlainFunctions, PlainStmts, EvalStmts, EvalExpr;
    StmtsRun(c, fuel, b.stmts, PushScope(s));
  }

  lemma {:induction false} StmtsRun(c: Ctx, fuel: nat, ss: seq<Stmt>, s: State)
    requires c.mode.Vm? && AvoidsStmts(c, fuel, ss, s)
    ensures EvalStmts(PlainContext(c), fuel, PlainStmts(ss), s) == EvalStmts(c, fuel, ss, s) && !Readings.Jump(EvalStmts(c, fuel, ss, s).o)
    decreases fuel, ss, 0
  {
    hide PlainFunctions, PlainStmt, EvalStmt;
    if ss != [] {
      NotSkipped(c, fuel, ss[0], s);
      StmtRuns(c, fuel, ss[0], s);
      var r := EvalStmt(c, fuel, ss[0], s);
      assert PlainStmts(ss)[0] == PlainStmt(ss[0]) && PlainStmts(ss)[1..] == PlainStmts(ss[1..]);
      if r.o.Norm? { StmtsRun(c, fuel, ss[1..], r.st); }
    }
  }

  lemma NotSkipped(c: Ctx, fuel: nat, st: Stmt, s: State)
    requires AvoidsStmt(c, fuel, st, s)
    ensures !st.Break? && !st.Continue?
  {
  }

  lemma {:induction false} StmtRuns(c: Ctx, fuel: nat, st: Stmt, s: State)
    requires c.mode.Vm? && AvoidsStmt(c, fuel, st, s)
    ensures EvalStmt(PlainContext(c), fuel, PlainStmt(st), s) == EvalStmt(c, fuel, st, s) && !Readings.Jump(EvalStmt(c, fuel, st, s).o)
    decreases fuel, st, 1
  {
    hide PlainFunctions, PlainExpr, EvalExpr;
    match st
    case Let(_, e) => ExprRuns(c, fuel, e, s);
    case Assign(_, e) => ExprRuns(c, fuel, e, s);
    case Output(e) => ExprRuns(c, fuel, e, s);
    case ExprStmt(e) => ExprRuns(c, fuel, e, s);
    case While(_, _) => WhileRuns(c, fuel, st, s);
    case DoWhile(_, _) => DoWhileRuns(c, fuel, st, s);
    case Return(e) => if e.Some? { ExprRuns(c, fuel, e.value, s); }
    case FnDef(_) =>
  }

  lemma {:induction false} WhileRuns(c: Ctx, fuel: nat, st: Stmt, s: State)
    requires st.While? && c.mode.Vm? && AvoidsWhile(c, fuel, st, s)
    ensures EvalStmt(PlainContext(c), fuel, PlainStmt(st), s) == EvalStmt(c, fuel, st, s) && !Readings.Jump(EvalStmt(c, fuel, st, s).o)
    decreases fuel, st, 0
  {
    hide PlainFunctions, PlainExpr, PlainStmts, EvalStmt, EvalExpr, EvalBlock;
    var d, pt := PlainContext(c), PlainStmt(st);
    if fuel == 0 {
      NoFuel(c, st, s);
      NoFuel(d, pt, s);
    } else {
      WhileMeans(c, fuel, st, s);
      WhileMeans(d, fuel, pt, s);
      ExprRuns(c, fuel, st.cond, s);
      var x := EvalExpr(c, fuel, st.cond, s);
      if x.o.Norm? && c.prims.truthy(x.o.v) {
        LoopBodyRuns(c, fuel, st.body, x.st);
        var b := EvalBlock(c, fuel, st.body, x.st);
        if b.o.Norm? { WhileRuns(c, fuel - 1, st, b.st); }
      }
    }
  }

  lemma {:induction false} DoWhileRuns(c: Ctx, fuel: nat, st: Stmt, s: State)
    requires st.DoWhile? && c.mode.Vm? && AvoidsDoWhile(c, fuel, st, s)
    ensures EvalStmt(PlainContext(c), fuel, PlainStmt(st), s) == EvalStmt(c, fuel, st, s) && !Readings.Jump(EvalStmt(c, fuel, st, s).o)
    decreases fuel, st, 0
  {
    hide PlainFunctions, PlainExpr, PlainStmts, EvalStmt, EvalExpr, EvalBlock;
    var d, pt := PlainContext(c), PlainStmt(st);
    if fuel == 0 {
      NoFuel(c, st, s);
      NoFuel(d, pt, s);
    } else {
      DoWhileMeans(c, fuel, st, s);
      DoWhileMeans(d, fuel, pt, s);
      LoopBodyRuns(c, fuel, st.body, s);
      var b := EvalBlock(c, fuel, st.body, s);
      if b.o.Norm? {
        ExprRuns(c, fuel, st.cond, b.st);
        var x := EvalExpr(c, fuel, st.cond, b.st);
        if x.o.Norm? && c.prims.truthy(x.o.v) { DoWhileRuns(c, fuel - 1, st, x.st); }
      }
    }
  }

  // ---- whole programs ----

  lemma {:induction false} PlainLast(ss: seq<Stmt>, st: Stmt)
    ensures PlainStmts(ss + [st]) == PlainStmts(ss) + if st.Break? || st.Continue? then [] else [PlainStmt(st)]
  {
    hide PlainStmt;
    if ss == [] {
      assert ([] + [st])[1..] == [];
    } else {
      assert (ss + [st])[1..] == ss[1..] + [st];
      PlainLast(ss[1..], st);
    }
  }

  lemma {:induction false} PlainTable(p: Program)
    ensures Functions(PlainStmts(p)) == PlainFunctions(Functions(p))
  {
    hide PlainBlock;
    if p != [] {
      var n := |p| - 1;
      var q, st := p[..n], p[n];
      assert q + [st] == p;
      PlainTable(q);
      PlainLast(q, st);
      if st.Break? || st.Continue? {
        assert PlainStmts(q) + [] == PlainStmts(q);
      } else {
        assert (PlainStmts(q) + [PlainStmt(st)])[..|PlainStmts(q)|] == PlainStmts(q);
      }
    }
  }

  // If the run of a program meets none of those constructs, and its plain form is supported, the machine ends
  // as the interpreter does, whatever else stands in the program.
  lemma UnreachedMatchesSource(prims: Prims, p: Program, fuel: nat, k: Rules) returns (final: Config)
    requires Compilable(PlainStmts(p)) && prims.Valid() && N.MAIN !in Functions(p)
    requires k.mode.Vm? && Apart(k, p, {}) && TameRun(prims, k, p, fuel)
    requires !N.Execute(prims, fuel, p).o.Fail? && AvoidsStmts(Context(prims, p), fuel, p, Initial())
    ensures var r := N.Execute(prims, fuel, p);
      r.o.Norm? && Reach(ImageOf(prims, p), Start(p), final) && final.Done? && final.out == r.st.out
    ensures forall other | Reach(ImageOf(prims, p), Start(p), other) && !other.Run? :: other == final
  {
    hide EvalStmts, AvoidsStmts, Compilable, Reach, TameRun, Apart, N.Execute, ImageOf, Start, PlainStmts, PlainFunctions;
    ProgramSame(prims, k, p, {}, fuel);
    StmtsRun(Context(prims, p), fuel, p, Initial());
    PlainTable(p);
    var v := MachineRunsPlain(prims, p, fuel);
    var r := EvalStmts(Context(prims, p), fuel, p, Initial());
    final := Done(v, r.st.globals, r.st.out);
    forall other | Reach(ImageOf(prims, p), Start(p), other) && !other.Run? ensures other == final {
      FinalUnique(ImageOf(prims, p), Start(p), final, other);
    }
  }
}
