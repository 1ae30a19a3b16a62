// Which programs the compiler rejects: exactly those with a `break` or
// `continue` outside every loop of its function.
module IrStray {
  import opened Wrappers
  import opened Syntax
  import opened Semantics
  import opened IrMachine
  import opened IrCodegen

  predicate StrayExpr(e: Expr, inLoop: bool)
    decreases e, 1
  {
    match e
    case Lit(_) => false
    case Var(_) => false
    case Bin(_, l, r) => StrayExpr(l, inLoop) || StrayExpr(r, inLoop)
    case Un(_, x) => StrayExpr(x, inLoop)
    case Call(_, args) => StrayArgs(args, inLoop)
    case If(c, t, f) => StrayExpr(c, inLoop) || StrayBlock(t, inLoop) || (f.Some? && StrayBlock(f.value, inLoop))
    case BlockExpr(b) => StrayBlock(b, inLoop)
    case Coalesce(l, r) => StrayExpr(l, inLoop) || StrayExpr(r, inLoop)
    case Loop(b) => StrayBlock(b, true)
  }

  predicate StrayArgs(args: seq<Expr>, inLoop: bool)
    decreases args, 0
  {
    args != [] && (StrayExpr(args[0], inLoop) || StrayArgs(args[1..], inLoop))
  }

  predicate StrayBlock(b: Block, inLoop: bool)
    decreases b, 0
  {
    StrayStmts(b.stmts, inLoop) || (b.tail.Some? && StrayExpr(b.tail.value, inLoop))
  }

  predicate StrayStmts(ss: seq<Stmt>, inLoop: bool)
    decreases ss, 0
  {
    ss != [] && (StrayStmt(ss[0], inLoop) || StrayStmts(ss[1..], inLoop))
  }

  predicate StrayStmt(st: Stmt, inLoop: bool)
    decreases st, 1
  {
    match st
    case Let(_, x) => StrayExpr(x, inLoop)
    case Assign(_, x) => StrayExpr(x, inLoop)
    case Output(x) => StrayExpr(x, inLoop)
    case ExprStmt(x) => StrayExpr(x, inLoop)
    case While(c, b) => StrayExpr(c, true) || StrayBlock(b, true)
    case DoWhile(b, c) => StrayBlock(b, true) || StrayExpr(c, true)
    case Break => !inLoop
    case Continue => !inLoop
    case Return(x) => x.Some? && StrayExpr(x.value, inLoop)
    case Throw(x) => StrayExpr(x, inLoop)
    case FnDef(_) => false
  }

  predicate StrayFunctions(p: Program) {
    exists i :: 0 <= i < |p| && p[i].FnDef? && StrayBlock(p[i].decl.body, false)
  }

  predicate StrayProgram(p: Program) {
    StrayStmts(p, false) || StrayFunctions(p)
  }

  lemma {:induction false} ExprStray(u: Unit, e: Expr, k: Option<nat>, env: Env)
    requires env.scopes != []
    ensures GenExpr(u, e, k, env).None? <==> StrayExpr(e, k.Some?)
    decreases e, 1
  {
    match e
    case Lit(_) =>
    case Var(_) =>
    case Bin(op, l, r) => BinStray(u, e, k, env);
    case Un(_, x) => ExprStray(u, x, k, env);
    case Call(_, args) => ArgsStray(u, args, k, env);
    case If(c, t, f) => IfStray(u, e, k, env);
    case BlockExpr(b) => BlockStray(u, b, k, env);
    case Coalesce(l, r) =>
      ExprStray(u, l, k, env);
      if GenExpr(u, l, k, env).Some? {
        ExprStray(u, r, Deeper(k, 1), WithTemp(GenExpr(u, l, k, env).value.env));
      }
    case Loop(b) => BlockStray(u, b, Some(0), env);
  }

  lemma {:induction false} BinStray(u: Unit, e: Expr, k: Option<nat>, env: Env)
    requires env.scopes != [] && e.Bin?
    ensures GenExpr(u, e, k, env).None? <==> StrayExpr(e, k.Some?)
    decreases e, 0
  {
    ExprStray(u, e.left, k, env);
    if GenExpr(u, e.left, k, env).Some? {
      var env1 := GenExpr(u, e.left, k, env).value.env;
      if e.op.And? || e.op.Or? {
        ExprStray(u, e.right, Deeper(k, 2), WithTemp(env1));
      } else {
        ExprStray(u, e.right, k, env1);
      }
    }
  }

  lemma {:induction false} IfStray(u: Unit, e: Expr, k: Option<nat>, env: Env)
    requires env.scopes != [] && e.If?
    ensures GenExpr(u, e, k, env).None? <==> StrayExpr(e, k.Some?)
    decreases e, 0
  {
    ExprStray(u, e.cond, k, env);
    if GenExpr(u, e.cond, k, env).Some? {
      var env1 := GenExpr(u, e.cond, k, env).value.env;
      BlockStray(u, e.thn, Deeper(k, 1), env1);
      if GenBlock(u, e.thn, Deeper(k, 1), env1).Some? && e.els.Some? {
        BlockStray(u, e.els.value, Deeper(k, 1), GenBlock(u, e.thn, Deeper(k, 1), env1).value.env);
      }
    }
  }

  lemma {:induction false} ArgsStray(u: Unit, args: seq<Expr>, k: Option<nat>, env: Env)
    requires env.scopes != []
    ensures GenArgs(u, args, k, env).None? <==> StrayArgs(args, k.Some?)
    decreases args, 0
  {
    if args != [] {
      ExprStray(u, args[0], k, env);
      if GenExpr(u, args[0], k, env).Some? {
        ArgsStray(u, args[1..], k, GenExpr(u, args[0], k, env).value.env);
      }
    }
  }

  lemma {:induction false} InnerStray(u: Unit, b: Block, k: Option<nat>, env: Env)
    requires env.scopes != []
    ensures GenInner(u, b, k, env).None? <==> StrayBlock(b, k.Some?)
    decreases b, 0
  {
    StmtsStray(u, b.stmts, k, env);
    if GenStmts(u, b.stmts, k, env).Some? && b.tail.Some? {
      ExprStray(u, b.tail.value, k, GenStmts(u, b.stmts, k, env).value.env);
    }
  }

  lemma {:induction false} BlockStray(u: Unit, b: Block, k: Option<nat>, env: Env)
    ensures GenBlock(u, b, k, env).None? <==> StrayBlock(b, k.Some?)
    ensures GenBody(u, b, k, env).None? <==> StrayBlock(b, k.Some?)
    decreases b, 1
  {
    InnerStray(u, b, k, Enter(env));
  }

  lemma {:induction false} StmtsStray(u: Unit, ss: seq<Stmt>, k: Option<nat>, env: Env)
    requires env.scopes != []
    ensures GenStmts(u, ss, k, env).None? <==> StrayStmts(ss, k.Some?)
    decreases ss, 0
  {
    if ss != [] {
      StmtStray(u, ss[0], k, env);
      if GenStmt(u, ss[0], k, env).Some? {
        StmtsStray(u, ss[1..], k, GenStmt(u, ss[0], k, env).value.env);
      }
    }
  }

  lemma {:induction false} StmtStray(u: Unit, st: Stmt, k: Option<nat>, env: Env)
    requires env.scopes != []
    ensures GenStmt(u, st, k, env).None? <==> StrayStmt(st, k.Some?)
    decreases st, 1
  {
    match st
    case Let(_, x) => ExprStray(u, x, k, env);
    case Assign(_, x) => ExprStray(u, x, k, env);
    case Output(x) => ExprStray(u, x, k, env);
    case ExprStmt(x) => ExprStray(u, x, k, env);
    case While(c, b) =>
      ExprStray(u, c, Some(0), env);
      if GenExpr(u, c, Some(0), env).Some? {
        BlockStray(u, b, Some(0), GenExpr(u, c, Some(0), env).value.env);
      }
    case DoWhile(b, c) =>
      BlockStray(u, b, Some(0), env);
      if GenBody(u, b, Some(0), env).Some? {
        ExprStray(u, c, Some(0), GenBody(u, b, Some(0), env).value.env);
      }
    case Break =>
    case Continue =>
    case Return(x) => if x.Some? { ExprStray(u, x.value, k, env); }
    case Throw(x) => ExprStray(u, x, k, env);
    case FnDef(_) =>
  }

  lemma StrayMain(u: Unit, p: Program, strings: seq<string>)
    ensures GenMain(u, p, strings).None? <==> StrayStmts(p, false)
  {
    StmtsStray(u, p, None, Env([map[]], [], strings, []));
  }

  lemma StrayFunction(u: Unit, decl: FnDecl, strings: seq<string>, globals: seq<string>)
    ensures GenFunction(u, decl, strings, globals).None? <==> StrayBlock(decl.body, false)
  {
    BlockStray(u, decl.body, None, ParamEnv(decl.params, strings, globals));
  }

  lemma NoStray(p: Program)
    ensures !StrayFunctions(p[..0])
  {
  }

  lemma StrayMore(p: Program, i: nat)
    requires i < |p|
    ensures StrayFunctions(p[..i + 1]) <==> StrayFunctions(p[..i]) || (p[i].FnDef? && StrayBlock(p[i].decl.body, false))
    ensures StrayFunctions(p[..i + 1]) ==> StrayFunctions(p)
  {
    if StrayFunctions(p[..i + 1]) {
      var j :| 0 <= j < |p[..i + 1]| && p[..i + 1][j].FnDef? && StrayBlock(p[..i + 1][j].decl.body, false);
      assert p[j] == p[..i + 1][j];
      if j < i { assert p[..i][j] == p[j]; }
    }
    if StrayFunctions(p[..i]) {
      var j :| 0 <= j < |p[..i]| && p[..i][j].FnDef? && StrayBlock(p[..i][j].decl.body, false);
      assert p[..i + 1][j] == p[..i][j];
    }
    if p[i].FnDef? { assert p[..i + 1][i] == p[i]; }
  }
}
