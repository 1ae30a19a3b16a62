// A function that reads a top-level variable: the interpreter sees the variable, compiled code
// the global of that name, which only a `let` at the top level and assignments in functions reach.
module ReadingsGlobals {
  import opened Wrappers
  import opened Syntax
  import opened Values
  import opened Semantics
  import opened Readings
  import opened ReadingsSame
  import N = Interpreter

  // ---- code that cannot reach the global `x`: no binding of `x` at the top level, no assignment to it in a function ----

  predicate KeepsExpr(x: string, top: bool, e: Expr)
    decreases e, 1
  {
    match e
    case Lit(_) => true
    case Var(_) => true
    case Bin(_, l, r) => KeepsExpr(x, top, l) && KeepsExpr(x, top, r)
    case Un(_, y) => KeepsExpr(x, top, y)
    case Call(_, args) => KeepsArgs(x, top, args)
    case If(c, t, f) => KeepsExpr(x, top, c) && KeepsBlock(x, top, t) && (f.Some? ==> KeepsBlock(x, top, f.value))
    case BlockExpr(b) => KeepsBlock(x, top, b)
    case Coalesce(l, r) => KeepsExpr(x, top, l) && KeepsExpr(x, top, r)
    case Loop(b) => KeepsBlock(x, top, b)
  }

  predicate KeepsArgs(x: string, top: bool, args: seq<Expr>)
    decreases args, 0
  {
    args != [] ==> KeepsExpr(x, top, args[0]) && KeepsArgs(x, top, args[1..])
  }

  predicate KeepsBlock(x: string, top: bool, b: Block)
    decreases b, 0
  {
    KeepsStmts(x, top, b.stmts) && (b.tail.Some? ==> KeepsExpr(x, top, b.tail.value))
  }

  predicate KeepsStmts(x: string, top: bool, ss: seq<Stmt>)
    decreases ss, 0
  {
    ss != [] ==> KeepsStmt(x, top, ss[0]) && KeepsStmts(x, top, ss[1..])
  }

  predicate KeepsStmt(x: string, top: bool, st: Stmt)
    decreases st, 1
  {
    match st
    case Let(y, e) => KeepsExpr(x, top, e) && (top ==> y != x)
    case Assign(y, e) => KeepsExpr(x, top, e) && (!top ==> y != x)
    case Output(e) => KeepsExpr(x, top, e)
    case ExprStmt(e) => KeepsExpr(x, top, e)
    case While(c, b) => KeepsExpr(x, top, c) && KeepsBlock(x, top, b)
    case DoWhile(b, c) => KeepsBlock(x, top, b) && KeepsExpr(x, top, c)
    case Return(e) => e.Some? ==> KeepsExpr(x, top, e.value)
    case Throw(e) => KeepsExpr(x, top, e)
    case Break => true
    case Continue => true
    case FnDef(_) => true
  }

  predicate KeepsFunctions(x: string, funs: map<string, FnDecl>) {
    forall f | f in funs :: KeepsBlock(x, false, funs[f].body)
  }

  // At the top level the variable itself is bound, so that assignments reach it and not the global.
  predicate HasTop(x: string, top: bool, t: State) {
    top ==> t.scopes != [] && x in t.scopes[0]
  }

  predicate Kept(x: string, top: bool, a: State, b: State) {
    HasTop(x, top, b) && (x in b.globals <==> x in a.globals) && GetGlobal(b.globals, x) == GetGlobal(a.globals, x)
  }

  lemma WriteKept(d: Ctx, x: string, y: string, v: Value, t: State)
    requires HasTop(x, d.top, t) && (!d.top ==> y != x)
    ensures Kept(x, d.top, t, WriteVar(d, y, v, t).st)
  {
  }

  lemma BindKept(d: Ctx, x: string, y: string, v: Value, t: State)
    requires HasTop(x, d.top, t) && (d.top ==> y != x)
    ensures Kept(x, d.top, t, BindVar(d, y, v, t).st)
  {
  }

  lemma PushKept(x: string, top: bool, t: State)
    requires HasTop(x, top, t)
    ensures Kept(x, top, t, PushScope(t))
  {
  }

  lemma PopKept(x: string, top: bool, a: State, t: State)
    requires Kept(x, top, a, t) && |t.scopes| > 1
    ensures Kept(x, top, a, PopScope(t))
  {
  }

  lemma {:induction false} ExprKept(d: Ctx, x: string, fuel: nat, e: Expr, t: State)
    requires KeepsFunctions(x, d.funs) && KeepsExpr(x, d.top, e) && HasTop(x, d.top, t)
    ensures Kept(x, d.top, t, EvalExpr(d, fuel, e, t).st)
    decreases fuel, e, 1
  {
    hide KeepsFunctions;
    match e
    case Lit(_) =>
    case Var(_) =>
    case Bin(_, l, r) =>
      ExprKept(d, x, fuel, l, t);
      ExprKept(d, x, fuel, r, EvalExpr(d, fuel, l, t).st);
    case Un(_, y) => ExprKept(d, x, fuel, y, t);
    case Call(_, _) => CallKept(d, x, fuel, e, t);
    case If(c, a, b) =>
      ExprKept(d, x, fuel, c, t);
      var y := EvalExpr(d, fuel, c, t);
      BlockKept(d, x, fuel, a, y.st);
      if b.Some? { BlockKept(d, x, fuel, b.value, y.st); }
    case BlockExpr(b) => BlockKept(d, x, fuel, b, t);
    case Coalesce(l, r) =>
      ExprKept(d, x, fuel, l, t);
      ExprKept(d, x, fuel, r, EvalExpr(d, fuel, l, t).st);
    case Loop(b) =>
      if fuel > 0 {
        BlockKept(d, x, fuel, b, t);
        ExprKept(d, x, fuel - 1, e, EvalBlock(d, fuel, b, t).st);
      }
  }

  lemma {:induction false} CallKept(d: Ctx, x: string, fuel: nat, e: Expr, t: State)
    requires e.Call? && KeepsFunctions(x, d.funs) && KeepsArgs(x, d.top, e.args) && HasTop(x, d.top, t)
    ensures Kept(x, d.top, t, EvalExpr(d, fuel, e, t).st)
    decreases fuel, e, 0
  {
    hide EvalExpr, EvalArgs, EvalBlock, KeepsArgs, KeepsBlock;
    CallMeans(d, fuel, e, t);
    ArgsKept(d, x, fuel, e.args, t);
    var a := EvalArgs(d, fuel, e.args, t);
    if a.o.Norm? && fuel > 0 && e.fn in d.funs {
      var f := d.funs[e.fn];
      BlockKept(d.(top := false), x, fuel - 1, f.body, State([ParamScope(f.params, Fitted(a.vs, |f.params|))], a.st.globals, a.st.out));
    }
  }

  lemma {:induction false} ArgsKept(d: Ctx, x: string, fuel: nat, args: seq<Expr>, t: State)
    requires KeepsFunctions(x, d.funs) && KeepsArgs(x, d.top, args) && HasTop(x, d.top, t)
    ensures Kept(x, d.top, t, EvalArgs(d, fuel, args, t).st)
    decreases fuel, args, 0
  {
    hide KeepsFunctions;
    if args != [] {
      ExprKept(d, x, fuel, args[0], t);
      ArgsKept(d, x, fuel, args[1..], EvalExpr(d, fuel, args[0], t).st);
    }
  }

  lemma {:induction false} BlockKept(d: Ctx, x: string, fuel: nat, b: Block, t: State)
    requires KeepsFunctions(x, d.funs) && KeepsBlock(x, d.top, b) && HasTop(x, d.top, t)
    ensures Kept(x, d.top, t, EvalBlock(d, fuel, b, t).st)
    decreases fuel, b, 0
  {
    hide KeepsFunctions, Kept;
    PushKept(x, d.top, t);
    KeptAgain(x, d.top, t, PushScope(t), EvalStmts(d, fuel, b.stmts, PushScope(t)).st);
    StmtsKept(d, x, fuel, b.stmts, PushScope(t));
    var r := EvalStmts(d, fuel, b.stmts, PushScope(t));
    if b.tail.Some? {
      ExprKept(d, x, fuel, b.tail.value, r.st);
      KeptAgain(x, d.top, t, r.st, EvalExpr(d, fuel, b.tail.value, r.st).st);
    }
    BlockState(d, x, fuel, b, t);
  }

  lemma KeptAgain(x: string, top: bool, a: State, b: State, c: State)
    ensures Kept(x, top, a, b) ==> HasTop(x, top, b)
    ensures Kept(x, top, a, b) && Kept(x, top, b, c) ==> Kept(x, top, a, c)
  {
  }

  lemma BlockState(d: Ctx, x: string, fuel: nat, b: Block, t: State)
    requires HasTop(x, d.top, t)
    requires Kept(x, d.top, t, EvalBody(d, fuel, b, PushScope(t)).st)
    ensures Kept(x, d.top, t, EvalBlock(d, fuel, b, t).st)
  {
    hide EvalBody;
    var r := EvalBody(d, fuel, b, PushScope(t));
    if d.top { PopKept(x, d.top, t, r.st); }
  }

  lemma {:induction false} StmtsKept(d: Ctx, x: string, fuel: nat, ss: seq<Stmt>, t: State)
    requires KeepsFunctions(x, d.funs) && KeepsStmts(x, d.top, ss) && HasTop(x, d.top, t)
    ensures Kept(x, d.top, t, EvalStmts(d, fuel, ss, t).st)
    decreases fuel, ss, 0
  {
    hide KeepsFunctions;
    if ss != [] {
      StmtKept(d, x, fuel, ss[0], t);
      var r := EvalStmt(d, fuel, ss[0], t);
      if r.o.Norm? { StmtsKept(d, x, fuel, ss[1..], r.st); }
    }
  }

  lemma {:induction false} StmtKept(d: Ctx, x: string, fuel: nat, st: Stmt, t: State)
    requires KeepsFunctions(x, d.funs) && KeepsStmt(x, d.top, st) && HasTop(x, d.top, t)
    ensures Kept(x, d.top, t, EvalStmt(d, fuel, st, t).st)
    decreases fuel, st, 1
  {
    hide KeepsFunctions;
    match st
    case Let(y, e) =>
      ExprKept(d, x, fuel, e, t);
      var r := EvalExpr(d, fuel, e, t);
      if r.o.Norm? { BindKept(d, x, y, r.o.v, r.st); }
    case Assign(y, e) =>
      ExprKept(d, x, fuel, e, t);
      var r := EvalExpr(d, fuel, e, t);
      if r.o.Norm? { WriteKept(d, x, y, r.o.v, r.st); }
    case Output(e) => ExprKept(d, x, fuel, e, t);
    case ExprStmt(e) => ExprKept(d, x, fuel, e, t);
    case While(_, _) => WhileKept(d, x, fuel, st, t);
    case DoWhile(_, _) => WhileKept(d, x, fuel, st, t);
    case Return(e) => if e.Some? { ExprKept(d, x, fuel, e.value, t); }
    case Throw(e) => ExprKept(d, x, fuel, e, t);
    case Break =>
    case Continue =>
    case FnDef(_) =>
  }

  lemma {:induction false} WhileKept(d: Ctx, x: string, fuel: nat, st: Stmt, t: State)
    requires (st.While? || st.DoWhile?) && KeepsFunctions(x, d.funs) && KeepsStmt(x, d.top, st) && HasTop(x, d.top, t)
    ensures Kept(x, d.top, t, EvalStmt(d, fuel, st, t).st)
    decreases fuel, st, 0
  {
    hide KeepsFunctions, EvalStmt, EvalExpr, EvalBlock;
    if fuel == 0 {
      NoFuel(d, st, t);
    } else if st.While? {
      WhileMeans(d, fuel, st, t);
      ExprKept(d, x, fuel, st.cond, t);
      var y := EvalExpr(d, fuel, st.cond, t);
      WhileKept(d, x, fuel - 1, st, y.st);
      BlockKept(d, x, fuel, st.body, y.st);
      WhileKept(d, x, fuel - 1, st, EvalBlock(d, fuel, st.body, y.st).st);
    } else {
      DoWhileMeans(d, fuel, st, t);
      BlockKept(d, x, fuel, st.body, t);
      var b := EvalBlock(d, fuel, st.body, t);
      WhileKept(d, x, fuel - 1, st, b.st);
      ExprKept(d, x, fuel, st.cond, b.st);
      WhileKept(d, x, fuel - 1, st, EvalExpr(d, fuel, st.cond, b.st).st);
    }
  }

  lemma NoFuel(d: Ctx, st: Stmt, t: State)
    requires st.While? || st.DoWhile?
    ensures EvalStmt(d, 0, st, t) == Res(Fail, t)
  {
  }

  // ---- what a function called afterwards reads ----

  // Where a function starts, in the interpreter and in compiled code.
  function Callee(f: FnDecl, vs: seq<Value>, t: State): State
    requires |f.params| == |vs|
  {
    PushScope(State([ParamScope(f.params, vs)], t.globals, t.out))
  }

  lemma CalleeReads(c: N.Ctx, d: Ctx, k: Rules, x: string, f: FnDecl, vs: seq<Value>, s: N.State, t: State)
    requires Reads(c, d, k, Outermost) && Same(Outermost, k, s, t) && x in s.scopes[0].vars
    requires |f.params| == |vs| && x !in f.params && x != N.NONE && NameOk(k, x)
    requires k.mode.Ir? ==> x !in d.funs && x !in d.builtins
    ensures N.ReadVar(x, N.Entry(c, f, vs, s)).o == Norm(s.scopes[0].vars[x])
    ensures ReadVar(d.(top := false), x, Callee(f, vs, t)).o == Norm(GetGlobal(t.globals, x))
  {
    ParamsSame(N.Scope(map[], {}), f.params, vs);
    var a, b := N.Entry(c, f, vs, s), Callee(f, vs, t);
    assert x !in a.scopes[1].vars;
    assert N.Find(a.scopes, x) == Some(0) by { assert x in a.scopes[0].vars; }
    assert Innermost(b.scopes, x).None?;
  }

  // After `let x = e` and code that binds no further `x` and calls no function that assigns one, a function that
  // reads x agrees if and only if x still has the value of that let; bytecode keeps no copy and agrees if and only
  // if x has the value that its global had before.
  lemma StaleRead(c: N.Ctx, d: Ctx, k: Rules, x: string, e: Expr, ss: seq<Stmt>, fuel: nat, f: FnDecl, vs: seq<Value>, s: N.State, t: State)
    requires Reads(c, d, k, Outermost) && Same(Outermost, k, s, t)
    requires KeepsFunctions(x, d.funs) && KeepsStmts(x, true, ss)
    requires TameStmts(c, k, Outermost, fuel, [Let(x, e)] + ss, s) && N.EvalStmts(c, fuel, [Let(x, e)] + ss, Null, s).o.Norm?
    requires |f.params| == |vs| && x !in f.params && (k.mode.Ir? ==> x !in d.funs && x !in d.builtins)
    ensures var v := N.EvalExpr(c, fuel, e, s).o;
      var s', t' := N.EvalStmts(c, fuel, [Let(x, e)] + ss, Null, s).st, EvalStmts(d, fuel, [Let(x, e)] + ss, t).st;
      && v.Norm? && x in s'.scopes[0].vars
      && (ReadVar(d.(top := false), x, Callee(f, vs, t')).o == N.ReadVar(x, N.Entry(c, f, vs, s')).o
          <==> s'.scopes[0].vars[x] == if k.mode.Ir? then v.v else GetGlobal(EvalExpr(d, fuel, e, t).st.globals, x))
  {
    hide Reads, Same, TameStmts, KeepsFunctions, KeepsStmts, KeepsExpr, N.EvalExpr, EvalExpr;
    var all := [Let(x, e)] + ss;
    ReadsParts(c, d, k, Outermost);
    SameStmts(c, d, k, Outermost, fuel, all, Null, s, t);
    var s', t' := N.EvalStmts(c, fuel, all, Null, s).st, EvalStmts(d, fuel, all, t).st;
    LetFirst(c, d, k, x, e, ss, fuel, s, t);
    var t1 := EvalStmt(d, fuel, Let(x, e), t).st;
    TopMode(c, d, k);
    StmtsKept(d, x, fuel, ss, t1);
    VarsSame(k, s', t', x);
    CalleeReads(c, d, k, x, f, vs, s', t');
  }

  lemma TopMode(c: N.Ctx, d: Ctx, k: Rules)
    requires Reads(c, d, k, Outermost)
    ensures d.top
  {
  }

  lemma VarsSame(k: Rules, s: N.State, t: State, x: string)
    requires Same(Outermost, k, s, t) && t.scopes != [] && x in t.scopes[0]
    ensures s.scopes != [] && x in s.scopes[0].vars
  {
  }

  lemma LetFirst(c: N.Ctx, d: Ctx, k: Rules, x: string, e: Expr, ss: seq<Stmt>, fuel: nat, s: N.State, t: State)
    requires Reads(c, d, k, Outermost) && Same(Outermost, k, s, t)
    requires TameStmts(c, k, Outermost, fuel, [Let(x, e)] + ss, s) && N.EvalStmts(c, fuel, [Let(x, e)] + ss, Null, s).o.Norm?
    ensures BindOk(k, Outermost, x)
    ensures var v, t1 := N.EvalExpr(c, fuel, e, s).o, EvalStmt(d, fuel, Let(x, e), t).st;
      && v.Norm? && HasTop(x, d.top, t1) && EvalStmts(d, fuel, [Let(x, e)] + ss, t) == EvalStmts(d, fuel, ss, t1)
      && GetGlobal(t1.globals, x) == if k.mode.Ir? then v.v else GetGlobal(EvalExpr(d, fuel, e, t).st.globals, x)
  {
    var all := [Let(x, e)] + ss;
    assert all[0] == Let(x, e) && all[1..] == ss;
    SameExpr(c, d, k, Outermost, true, fuel, e, s, t);
  }
}
