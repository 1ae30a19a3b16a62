// Optimization keeps the meaning of every run that meets none of its wrong rewritings, and never makes the
// program larger.
module OptimizerSound {
  import opened Wrappers
  import opened Syntax
  import opened Values
  import opened Interpreter
  import opened OptimizerTyping
  import opened Optimizer

  // ---- refinement of fragments: same result, and still such a run, in every context ----

  ghost predicate AgreeExpr(c: Ctx, fuel: nat, u: bool, e: Expr, e': Expr, s: State) {
    Suited(c) && TypedExpr(c, fuel, u, e, s) && !EvalExpr(c, fuel, e, s).o.Fail? ==>
      EvalExpr(c, fuel, e', s) == EvalExpr(c, fuel, e, s) && TypedExpr(c, fuel, u, e', s)
  }

  ghost predicate AgreeArgs(c: Ctx, fuel: nat, args: seq<Expr>, args': seq<Expr>, s: State) {
    Suited(c) && TypedArgs(c, fuel, args, s) && !EvalArgs(c, fuel, args, s).o.Fail? ==>
      EvalArgs(c, fuel, args', s) == EvalArgs(c, fuel, args, s) && TypedArgs(c, fuel, args', s)
  }

  // The statements and the tail of a block or function, in any scopes.
  ghost predicate AgreeBody(c: Ctx, fuel: nat, b: Block, b': Block, s: State) {
    Suited(c) && TypedBody(c, fuel, b, s) && !EvalBody(c, fuel, b, s).o.Fail? ==>
      EvalBody(c, fuel, b', s) == EvalBody(c, fuel, b, s) && TypedBody(c, fuel, b', s)
  }

  ghost predicate AgreeStmts(c: Ctx, fuel: nat, ss: seq<Stmt>, ss': seq<Stmt>, last: Value, s: State) {
    Suited(c) && TypedStmts(c, fuel, ss, s) && !EvalStmts(c, fuel, ss, last, s).o.Fail? ==>
      EvalStmts(c, fuel, ss', last, s) == EvalStmts(c, fuel, ss, last, s) && TypedStmts(c, fuel, ss', s)
  }

  ghost predicate AgreeStmt(c: Ctx, fuel: nat, st: Stmt, st': Stmt, s: State) {
    Suited(c) && TypedStmt(c, fuel, st, s) && !EvalStmt(c, fuel, st, s).o.Fail? ==>
      EvalStmt(c, fuel, st', s) == EvalStmt(c, fuel, st, s) && TypedStmt(c, fuel, st', s)
  }

  // A literal comes from a constant only.
  ghost predicate RefinesExpr(e: Expr, e': Expr) {
    (Constant(e') ==> Constant(e)) && forall c: Ctx, fuel: nat, u: bool, s: State :: AgreeExpr(c, fuel, u, e, e', s)
  }

  ghost predicate RefinesArgs(args: seq<Expr>, args': seq<Expr>) {
    |args| == |args'| && forall c: Ctx, fuel: nat, s: State :: AgreeArgs(c, fuel, args, args', s)
  }

  ghost predicate RefinesBlock(b: Block, b': Block) {
    forall c: Ctx, fuel: nat, s: State :: AgreeBody(c, fuel, b, b', s)
  }

  ghost predicate RefinesStmts(ss: seq<Stmt>, ss': seq<Stmt>) {
    forall c: Ctx, fuel: nat, last: Value, s: State :: AgreeStmts(c, fuel, ss, ss', last, s)
  }

  ghost predicate RefinesStmt(st: Stmt, st': Stmt) {
    forall c: Ctx, fuel: nat, s: State :: AgreeStmt(c, fuel, st, st', s)
  }

  ghost predicate RefinesTail(t: Option<Expr>, t': Option<Expr>) {
    t.Some? == t'.Some? && (t.Some? ==> RefinesExpr(t.value, t'.value))
  }

  lemma UseExpr(e: Expr, e': Expr, c: Ctx, fuel: nat, u: bool, s: State)
    requires RefinesExpr(e, e') && Suited(c) && TypedExpr(c, fuel, u, e, s) && !EvalExpr(c, fuel, e, s).o.Fail?
    ensures EvalExpr(c, fuel, e', s) == EvalExpr(c, fuel, e, s) && TypedExpr(c, fuel, u, e', s)
  {
    hide TypedExpr, EvalExpr, Suited;
    var agree := AgreeExpr(c, fuel, u, e, e', s);
    assert agree;
  }

  lemma UseConstant(e: Expr, e': Expr)
    requires RefinesExpr(e, e')
    ensures Constant(e') ==> Constant(e)
  {
  }

  lemma UseBody(b: Block, b': Block, c: Ctx, fuel: nat, s: State)
    requires RefinesBlock(b, b') && Suited(c) && TypedBody(c, fuel, b, s) && !EvalBody(c, fuel, b, s).o.Fail?
    ensures EvalBody(c, fuel, b', s) == EvalBody(c, fuel, b, s) && TypedBody(c, fuel, b', s)
  {
    hide TypedBody, EvalBody, Suited;
    var agree := AgreeBody(c, fuel, b, b', s);
    assert agree;
  }

  lemma UseBlock(b: Block, b': Block, c: Ctx, fuel: nat, s: State)
    requires RefinesBlock(b, b') && Suited(c) && TypedBlock(c, fuel, b, s) && !EvalBlock(c, fuel, b, s).o.Fail?
    ensures EvalBlock(c, fuel, b', s) == EvalBlock(c, fuel, b, s) && TypedBlock(c, fuel, b', s)
  {
    hide TypedBody, EvalBody, Suited, RefinesBlock;
    UseBody(b, b', c, fuel, PushScope(s));
  }

  lemma UseArgs(a: seq<Expr>, a': seq<Expr>, c: Ctx, fuel: nat, s: State)
    requires RefinesArgs(a, a') && Suited(c) && TypedArgs(c, fuel, a, s) && !EvalArgs(c, fuel, a, s).o.Fail?
    ensures EvalArgs(c, fuel, a', s) == EvalArgs(c, fuel, a, s) && TypedArgs(c, fuel, a', s)
  {
    hide TypedArgs, EvalArgs, Suited;
    var agree := AgreeArgs(c, fuel, a, a', s);
    assert agree;
  }

  lemma UseStmt(st: Stmt, st': Stmt, c: Ctx, fuel: nat, s: State)
    requires RefinesStmt(st, st') && Suited(c) && TypedStmt(c, fuel, st, s) && !EvalStmt(c, fuel, st, s).o.Fail?
    ensures EvalStmt(c, fuel, st', s) == EvalStmt(c, fuel, st, s) && TypedStmt(c, fuel, st', s)
  {
    hide TypedStmt, EvalStmt, Suited;
    var agree := AgreeStmt(c, fuel, st, st', s);
    assert agree;
  }

  lemma UseStmts(ss: seq<Stmt>, ss': seq<Stmt>, c: Ctx, fuel: nat, last: Value, s: State)
    requires RefinesStmts(ss, ss') && Suited(c) && TypedStmts(c, fuel, ss, s) && !EvalStmts(c, fuel, ss, last, s).o.Fail?
    ensures EvalStmts(c, fuel, ss', last, s) == EvalStmts(c, fuel, ss, last, s) && TypedStmts(c, fuel, ss', s)
  {
    hide TypedStmts, EvalStmts, Suited;
    var agree := AgreeStmts(c, fuel, ss, ss', last, s);
    assert agree;
  }

  // ---- congruence: refining the parts refines the whole ----

  lemma BinRefines(op: BinOp, l: Expr, r: Expr, l': Expr, r': Expr)
    requires RefinesExpr(l, l') && RefinesExpr(r, r')
    ensures RefinesExpr(Bin(op, l, r), Bin(op, l', r'))
  {
    hide RefinesExpr, AgreeExpr;
    UseConstant(l, l');
    UseConstant(r, r');
    forall c: Ctx, fuel: nat, u: bool, s: State ensures AgreeExpr(c, fuel, u, Bin(op, l, r), Bin(op, l', r'), s) {
      BinAgrees(op, l, r, l', r', c, fuel, u, s);
    }
    RefinesAll(Bin(op, l, r), Bin(op, l', r'));
  }

  lemma BinAgrees(op: BinOp, l: Expr, r: Expr, l': Expr, r': Expr, c: Ctx, fuel: nat, u: bool, s: State)
    requires RefinesExpr(l, l') && RefinesExpr(r, r')
    ensures AgreeExpr(c, fuel, u, Bin(op, l, r), Bin(op, l', r'), s)
  {
    hide RefinesExpr, Suited, EvalExpr, TypedExpr, Fits, Under, Lift, NeedsRight, Constant;
    BinMeans(c, fuel, u, op, l, r, s);
    BinMeans(c, fuel, u, op, l', r', s);
    if Suited(c) && TypedExpr(c, fuel, u, Bin(op, l, r), s) && !EvalExpr(c, fuel, Bin(op, l, r), s).o.Fail? {
      UnderKept(op, u, l, l');
      UnderKept(op, u, r, r');
      LessStrict(c, fuel, Under(op, u, r), Under(op, u, r'), l, s);
      UseExpr(l, l', c, fuel, Under(op, u, r'), s);
      var x := EvalExpr(c, fuel, l, s);
      if x.o.Norm? && NeedsRight(c.prims, op, x.o.v) {
        LessStrict(c, fuel, Under(op, u, l), Under(op, u, l'), r, x.st);
        UseExpr(r, r', c, fuel, Under(op, u, l'), x.st);
        var y := EvalExpr(c, fuel, r, x.st);
        if y.o.Norm? { FitsKept(op, l, r, l', r', x.o.v, y.o.v); }
      }
    }
  }

  lemma UnderKept(op: BinOp, u: bool, e: Expr, e': Expr)
    requires RefinesExpr(e, e')
    ensures Under(op, u, e') ==> Under(op, u, e)
  {
    hide RefinesExpr, Constant;
    UseConstant(e, e');
  }

  lemma FitsKept(op: BinOp, l: Expr, r: Expr, l': Expr, r': Expr, x: Value, y: Value)
    requires RefinesExpr(l, l') && RefinesExpr(r, r')
    ensures Fits(op, l, r, x, y) ==> Fits(op, l', r', x, y)
  {
    hide RefinesExpr, Constant;
    UseConstant(l, l');
    UseConstant(r, r');
  }

  lemma SuitedMode(c: Ctx)
    requires Suited(c)
    ensures forall v :: c.prims.truthy(v) == Truth(v)
  {
  }

  lemma RefinesAll(e: Expr, e': Expr)
    requires (Constant(e') ==> Constant(e)) && forall c: Ctx, fuel: nat, u: bool, s: State :: AgreeExpr(c, fuel, u, e, e', s)
    ensures RefinesExpr(e, e')
  {
    hide AgreeExpr;
  }

  lemma UnRefines(op: UnOp, x: Expr, x': Expr)
    requires RefinesExpr(x, x')
    ensures RefinesExpr(Un(op, x), Un(op, x'))
  {
    hide RefinesExpr, Suited;
    forall c: Ctx, fuel: nat, u: bool, s: State ensures AgreeExpr(c, fuel, u, Un(op, x), Un(op, x'), s) {
      if Suited(c) && TypedExpr(c, fuel, u, Un(op, x), s) && !EvalExpr(c, fuel, Un(op, x), s).o.Fail? {
        UseExpr(x, x', c, fuel, u || op.Not?, s);
      }
    }
    UseConstant(x, x');
    RefinesAll(Un(op, x), Un(op, x'));
  }

  lemma CallRefines(fn: string, args: seq<Expr>, args': seq<Expr>)
    requires RefinesArgs(args, args')
    ensures RefinesExpr(Call(fn, args), Call(fn, args'))
  {
    hide RefinesArgs, Suited;
    forall c: Ctx, fuel: nat, u: bool, s: State ensures AgreeExpr(c, fuel, u, Call(fn, args), Call(fn, args'), s) {
      if Suited(c) && TypedExpr(c, fuel, u, Call(fn, args), s) && !EvalExpr(c, fuel, Call(fn, args), s).o.Fail? {
        UseArgs(args, args', c, fuel, s);
      }
    }
    RefinesAll(Call(fn, args), Call(fn, args'));
  }

  lemma ArgsRefine(x: Expr, x': Expr, rest: seq<Expr>, rest': seq<Expr>)
    requires RefinesExpr(x, x') && RefinesArgs(rest, rest')
    ensures RefinesArgs([x] + rest, [x'] + rest')
  {
    hide RefinesExpr, Suited;
    var args, args' := [x] + rest, [x'] + rest';
    assert args[1..] == rest && args'[1..] == rest';
    forall c: Ctx, fuel: nat, s: State ensures AgreeArgs(c, fuel, args, args', s) {
      if Suited(c) && TypedArgs(c, fuel, args, s) && !EvalArgs(c, fuel, args, s).o.Fail? {
        UseExpr(x, x', c, fuel, false, s);
        var r := EvalExpr(c, fuel, x, s);
        if r.o.Norm? {
          UseArgs(rest, rest', c, fuel, r.st);
        }
      }
    }
  }

  lemma IfRefines(x: Expr, x': Expr, t: Block, t': Block, f: Option<Block>, f': Option<Block>)
    requires RefinesExpr(x, x') && RefinesBlock(t, t') && f.Some? == f'.Some? && (f.Some? ==> RefinesBlock(f.value, f'.value))
    ensures RefinesExpr(If(x, t, f), If(x', t', f'))
  {
    hide RefinesExpr, RefinesBlock, Suited, EvalExpr, TypedExpr, EvalBlock, TypedBlock;
    var e, e' := If(x, t, f), If(x', t', f');
    forall c: Ctx, fuel: nat, u: bool, s: State ensures AgreeExpr(c, fuel, u, e, e', s) {
      IfMeans(c, fuel, u, e, s);
      IfMeans(c, fuel, u, e', s);
      if Suited(c) && TypedExpr(c, fuel, u, e, s) && !EvalExpr(c, fuel, e, s).o.Fail? {
        UseExpr(x, x', c, fuel, false, s);
        var r := EvalExpr(c, fuel, x, s);
        if r.o == Norm(Bool(true)) {
          UseBlock(t, t', c, fuel, r.st);
        } else if r.o == Norm(Bool(false)) && f.Some? {
          UseBlock(f.value, f'.value, c, fuel, r.st);
        }
      }
    }
    RefinesAll(e, e');
  }

  lemma IfMeans(c: Ctx, fuel: nat, u: bool, e: Expr, s: State)
    requires e.If?
    ensures var x := EvalExpr(c, fuel, e.cond, s);
      && EvalExpr(c, fuel, e, s) ==
           (if !x.o.Norm? then x
            else if !x.o.v.Bool? then Res(Fail, x.st)
            else if x.o.v.b then EvalBlock(c, fuel, e.thn, x.st)
            else if e.els.Some? then EvalBlock(c, fuel, e.els.value, x.st)
            else Res(Norm(Null), x.st))
      && (TypedExpr(c, fuel, u, e, s) <==>
            && TypedExpr(c, fuel, false, e.cond, s)
            && (x.o == Norm(Bool(true)) ==> TypedBlock(c, fuel, e.thn, x.st))
            && (x.o == Norm(Bool(false)) && e.els.Some? ==> TypedBlock(c, fuel, e.els.value, x.st)))
  {
  }

  lemma BlockExprRefines(b: Block, b': Block)
    requires RefinesBlock(b, b')
    ensures RefinesExpr(BlockExpr(b), BlockExpr(b'))
  {
    hide RefinesBlock, Suited;
    forall c: Ctx, fuel: nat, u: bool, s: State ensures AgreeExpr(c, fuel, u, BlockExpr(b), BlockExpr(b'), s) {
      if Suited(c) && TypedExpr(c, fuel, u, BlockExpr(b), s) && !EvalExpr(c, fuel, BlockExpr(b), s).o.Fail? {
        UseBlock(b, b', c, fuel, s);
      }
    }
    RefinesAll(BlockExpr(b), BlockExpr(b'));
  }

  lemma CoalesceRefines(l: Expr, r: Expr, l': Expr, r': Expr)
    requires RefinesExpr(l, l') && RefinesExpr(r, r')
    ensures RefinesExpr(Coalesce(l, r), Coalesce(l', r'))
  {
    forall c: Ctx, fuel: nat, u: bool, s: State ensures AgreeExpr(c, fuel, u, Coalesce(l, r), Coalesce(l', r'), s) {
      CoalesceAgrees(l, r, l', r', c, fuel, u, s);
    }
    RefinesAll(Coalesce(l, r), Coalesce(l', r'));
  }

  lemma CoalesceAgrees(l: Expr, r: Expr, l': Expr, r': Expr, c: Ctx, fuel: nat, u: bool, s: State)
    requires RefinesExpr(l, l') && RefinesExpr(r, r')
    ensures AgreeExpr(c, fuel, u, Coalesce(l, r), Coalesce(l', r'), s)
  {
    hide RefinesExpr, Suited, EvalExpr, TypedExpr;
    CoalesceMeans(c, fuel, u, l, r, s);
    CoalesceMeans(c, fuel, u, l', r', s);
    if Suited(c) && TypedExpr(c, fuel, u, Coalesce(l, r), s) && !EvalExpr(c, fuel, Coalesce(l, r), s).o.Fail? {
      UseExpr(l, l', c, fuel, false, s);
      var x := EvalExpr(c, fuel, l, s);
      if x.o == Norm(Null) {
        UseExpr(r, r', c, fuel, false, x.st);
      }
    }
  }

  lemma CoalesceMeans(c: Ctx, fuel: nat, u: bool, l: Expr, r: Expr, s: State)
    ensures var x := EvalExpr(c, fuel, l, s);
      && EvalExpr(c, fuel, Coalesce(l, r), s) == (if x.o == Norm(Null) then EvalExpr(c, fuel, r, x.st) else x)
      && (TypedExpr(c, fuel, u, Coalesce(l, r), s) <==>
            TypedExpr(c, fuel, false, l, s) && (x.o == Norm(Null) ==> TypedExpr(c, fuel, false, r, x.st)))
  {
    hide EvalExpr, TypedExpr;
    CoalesceEval(c, fuel, u, Coalesce(l, r), s);
  }

  lemma CoalesceEval(c: Ctx, fuel: nat, u: bool, e: Expr, s: State)
    requires e.Coalesce?
    ensures var x := EvalExpr(c, fuel, e.first, s);
      && EvalExpr(c, fuel, e, s) == (if x.o == Norm(Null) then EvalExpr(c, fuel, e.default, x.st) else x)
      && (TypedExpr(c, fuel, u, e, s) <==>
            TypedExpr(c, fuel, false, e.first, s) && (x.o == Norm(Null) ==> TypedExpr(c, fuel, false, e.default, x.st)))
  {
  }

  lemma LoopRefines(b: Block, b': Block)
    requires RefinesBlock(b, b')
    ensures RefinesExpr(Loop(b), Loop(b'))
  {
    hide RefinesBlock, Suited;
    forall c: Ctx, fuel: nat, u: bool, s: State ensures AgreeExpr(c, fuel, u, Loop(b), Loop(b'), s) {
      LoopAgrees(b, b', c, fuel, u, s);
    }
    RefinesAll(Loop(b), Loop(b'));
  }

  lemma {:induction false} LoopAgrees(b: Block, b': Block, c: Ctx, fuel: nat, u: bool, s: State)
    requires RefinesBlock(b, b')
    ensures AgreeExpr(c, fuel, u, Loop(b), Loop(b'), s)
    decreases fuel
  {
    hide RefinesBlock, Suited, EvalBlock, TypedBlock;
    if Suited(c) && TypedExpr(c, fuel, u, Loop(b), s) && !EvalExpr(c, fuel, Loop(b), s).o.Fail? {
      UseBlock(b, b', c, fuel, s);
      LoopAgrees(b, b', c, fuel - 1, u, EvalBlock(c, fuel, b, s).st);
    }
  }

  // Statements that evaluate one expression and act on the value.
  function WithOperand(st: Stmt, e: Expr): Stmt
    requires st.Let? || st.Assign? || st.Output? || st.ExprStmt? || st.Throw? || st.Return?
  {
    match st
    case Let(x, _) => Let(x, e)
    case Assign(x, _) => Assign(x, e)
    case Output(_) => Output(e)
    case ExprStmt(_) => ExprStmt(e)
    case Throw(_) => Throw(e)
    case Return(_) => Return(Some(e))
  }

  lemma OperandRefines(st: Stmt, e: Expr, e': Expr)
    requires st.Let? || st.Assign? || st.Output? || st.ExprStmt? || st.Throw? || st.Return?
    requires RefinesExpr(e, e')
    ensures RefinesStmt(WithOperand(st, e), WithOperand(st, e'))
  {
    hide RefinesExpr, Suited, EvalExpr, TypedExpr;
    forall c: Ctx, fuel: nat, s: State ensures AgreeStmt(c, fuel, WithOperand(st, e), WithOperand(st, e'), s) {
      if Suited(c) && TypedStmt(c, fuel, WithOperand(st, e), s) && !EvalStmt(c, fuel, WithOperand(st, e), s).o.Fail? {
        UseExpr(e, e', c, fuel, false, s);
      }
    }
  }

  lemma WhileRefines(x: Expr, x': Expr, b: Block, b': Block)
    requires RefinesExpr(x, x') && RefinesBlock(b, b')
    ensures RefinesStmt(While(x, b), While(x', b'))
  {
    hide RefinesExpr, RefinesBlock, EvalWhile, Suited;
    forall c: Ctx, fuel: nat, s: State ensures AgreeStmt(c, fuel, While(x, b), While(x', b'), s) {
      WhileAgrees(x, x', b, b', c, fuel, Null, s);
    }
  }

  ghost predicate AgreeWhile(c: Ctx, fuel: nat, st: Stmt, st': Stmt, last: Value, s: State)
    requires st.While? && st'.While?
  {
    Suited(c) && TypedStmt(c, fuel, st, s) && !EvalWhile(c, fuel, st, last, s).o.Fail? ==>
      EvalWhile(c, fuel, st', last, s) == EvalWhile(c, fuel, st, last, s) && TypedStmt(c, fuel, st', s)
  }

  lemma {:induction false} WhileAgrees(x: Expr, x': Expr, b: Block, b': Block, c: Ctx, fuel: nat, last: Value, s: State)
    requires RefinesExpr(x, x') && RefinesBlock(b, b')
    ensures AgreeWhile(c, fuel, While(x, b), While(x', b'), last, s)
    decreases fuel
  {
    hide RefinesExpr, RefinesBlock, Suited, EvalExpr, TypedExpr, EvalBlock, TypedBlock;
    var st := While(x, b);
    if Suited(c) && TypedStmt(c, fuel, st, s) && !EvalWhile(c, fuel, st, last, s).o.Fail? {
      UseExpr(x, x', c, fuel, false, s);
      var r := EvalExpr(c, fuel, x, s);
      if r.o == Norm(Bool(true)) {
        UseBlock(b, b', c, fuel, r.st);
        var y := EvalBlock(c, fuel, b, r.st);
        WhileAgrees(x, x', b, b', c, fuel - 1, if y.o.Norm? then y.o.v else last, y.st);
      }
    }
  }

  lemma DoWhileRefines(x: Expr, x': Expr, b: Block, b': Block)
    requires RefinesExpr(x, x') && RefinesBlock(b, b')
    ensures RefinesStmt(DoWhile(b, x), DoWhile(b', x'))
  {
    hide RefinesExpr, RefinesBlock, EvalDoWhile, Suited;
    forall c: Ctx, fuel: nat, s: State ensures AgreeStmt(c, fuel, DoWhile(b, x), DoWhile(b', x'), s) {
      DoWhileAgrees(x, x', b, b', c, fuel, Null, s);
    }
  }

  ghost predicate AgreeDoWhile(c: Ctx, fuel: nat, st: Stmt, st': Stmt, last: Value, s: State)
    requires st.DoWhile? && st'.DoWhile?
  {
    Suited(c) && TypedStmt(c, fuel, st, s) && !EvalDoWhile(c, fuel, st, last, s).o.Fail? ==>
      EvalDoWhile(c, fuel, st', last, s) == EvalDoWhile(c, fuel, st, last, s) && TypedStmt(c, fuel, st', s)
  }

  lemma {:induction false} DoWhileAgrees(x: Expr, x': Expr, b: Block, b': Block, c: Ctx, fuel: nat, last: Value, s: State)
    requires RefinesExpr(x, x') && RefinesBlock(b, b')
    ensures AgreeDoWhile(c, fuel, DoWhile(b, x), DoWhile(b', x'), last, s)
    decreases fuel
  {
    hide RefinesExpr, RefinesBlock, Suited, EvalExpr, TypedExpr, EvalBlock, TypedBlock;
    var st := DoWhile(b, x);
    if Suited(c) && TypedStmt(c, fuel, st, s) && !EvalDoWhile(c, fuel, st, last, s).o.Fail? {
      UseBlock(b, b', c, fuel, s);
      var r := EvalBlock(c, fuel, b, s);
      if r.o.Norm? || r.o.Cont? {
        UseExpr(x, x', c, fuel, false, r.st);
        DoWhileAgrees(x, x', b, b', c, fuel - 1, if r.o.Norm? then r.o.v else last, EvalExpr(c, fuel, x, r.st).st);
      }
    }
  }

  lemma StmtsRefine(x: Stmt, x': Stmt, rest: seq<Stmt>, rest': seq<Stmt>)
    requires RefinesStmt(x, x') && RefinesStmts(rest, rest')
    ensures RefinesStmts([x] + rest, [x'] + rest')
  {
    hide RefinesStmt, Suited, EvalStmt, TypedStmt;
    var ss, ss' := [x] + rest, [x'] + rest';
    assert ss[1..] == rest && ss'[1..] == rest';
    forall c: Ctx, fuel: nat, last: Value, s: State ensures AgreeStmts(c, fuel, ss, ss', last, s) {
      if Suited(c) && TypedStmts(c, fuel, ss, s) && !EvalStmts(c, fuel, ss, last, s).o.Fail? {
        UseStmt(x, x', c, fuel, s);
        var r := EvalStmt(c, fuel, x, s);
        if r.o.Norm? {
          UseStmts(rest, rest', c, fuel, r.o.v, r.st);
        }
      }
    }
  }

  lemma BodyMeans(c: Ctx, fuel: nat, b: Block, s: State)
    ensures var r := EvalStmts(c, fuel, b.stmts, Null, s);
      && EvalBody(c, fuel, b, s) == (if !r.o.Norm? || b.tail.None? then r else EvalExpr(c, fuel, b.tail.value, r.st))
      && (TypedBody(c, fuel, b, s) <==>
            TypedStmts(c, fuel, b.stmts, s) && (r.o.Norm? && b.tail.Some? ==> TypedExpr(c, fuel, false, b.tail.value, r.st)))
  {
  }

  lemma BlockRefines(b: Block, b': Block)
    requires RefinesStmts(b.stmts, b'.stmts) && RefinesTail(b.tail, b'.tail)
    ensures RefinesBlock(b, b')
  {
    hide RefinesStmts, RefinesExpr, Suited, EvalBody, TypedBody, EvalStmts, TypedStmts, EvalExpr, TypedExpr;
    forall c: Ctx, fuel: nat, s: State ensures AgreeBody(c, fuel, b, b', s) {
      BodyMeans(c, fuel, b, s);
      BodyMeans(c, fuel, b', s);
      if Suited(c) && TypedBody(c, fuel, b, s) && !EvalBody(c, fuel, b, s).o.Fail? {
        UseStmts(b.stmts, b'.stmts, c, fuel, Null, s);
        var r := EvalStmts(c, fuel, b.stmts, Null, s);
        if r.o.Norm? && b.tail.Some? {
          UseExpr(b.tail.value, b'.tail.value, c, fuel, false, r.st);
        }
      }
    }
  }

  // ---- transitivity and reflexivity ----

  lemma ExprTrans(a: Expr, b: Expr, d: Expr)
    requires RefinesExpr(a, b) && RefinesExpr(b, d)
    ensures RefinesExpr(a, d)
  {
    hide RefinesExpr, Suited, EvalExpr, TypedExpr;
    forall c: Ctx, fuel: nat, u: bool, s: State ensures AgreeExpr(c, fuel, u, a, d, s) {
      if Suited(c) && TypedExpr(c, fuel, u, a, s) && !EvalExpr(c, fuel, a, s).o.Fail? {
        UseExpr(a, b, c, fuel, u, s);
        UseExpr(b, d, c, fuel, u, s);
      }
    }
    UseConstant(a, b);
    UseConstant(b, d);
    RefinesAll(a, d);
  }

  lemma StmtTrans(a: Stmt, b: Stmt, d: Stmt)
    requires RefinesStmt(a, b) && RefinesStmt(b, d)
    ensures RefinesStmt(a, d)
  {
    hide RefinesStmt, Suited, EvalStmt, TypedStmt;
    forall c: Ctx, fuel: nat, s: State ensures AgreeStmt(c, fuel, a, d, s) {
      if Suited(c) && TypedStmt(c, fuel, a, s) && !EvalStmt(c, fuel, a, s).o.Fail? {
        UseStmt(a, b, c, fuel, s);
        UseStmt(b, d, c, fuel, s);
      }
    }
    StmtAll(a, d);
  }

  lemma StmtAll(st: Stmt, st': Stmt)
    requires forall c: Ctx, fuel: nat, s: State :: AgreeStmt(c, fuel, st, st', s)
    ensures RefinesStmt(st, st')
  {
    hide AgreeStmt;
  }

  lemma BlockTrans(a: Block, b: Block, d: Block)
    requires RefinesBlock(a, b) && RefinesBlock(b, d)
    ensures RefinesBlock(a, d)
  {
    hide RefinesBlock, Suited, EvalBody, TypedBody;
    forall c: Ctx, fuel: nat, s: State ensures AgreeBody(c, fuel, a, d, s) {
      if Suited(c) && TypedBody(c, fuel, a, s) && !EvalBody(c, fuel, a, s).o.Fail? {
        UseBody(a, b, c, fuel, s);
        UseBody(b, d, c, fuel, s);
      }
    }
    BlockAll(a, d);
  }

  lemma BlockAll(b: Block, b': Block)
    requires forall c: Ctx, fuel: nat, s: State :: AgreeBody(c, fuel, b, b', s)
    ensures RefinesBlock(b, b')
  {
    hide AgreeBody;
  }

  lemma StmtsTrans(a: seq<Stmt>, b: seq<Stmt>, d: seq<Stmt>)
    requires RefinesStmts(a, b) && RefinesStmts(b, d)
    ensures RefinesStmts(a, d)
  {
    hide RefinesStmts, Suited, EvalStmts, TypedStmts;
    forall c: Ctx, fuel: nat, last: Value, s: State ensures AgreeStmts(c, fuel, a, d, last, s) {
      if Suited(c) && TypedStmts(c, fuel, a, s) && !EvalStmts(c, fuel, a, last, s).o.Fail? {
        UseStmts(a, b, c, fuel, last, s);
        UseStmts(b, d, c, fuel, last, s);
      }
    }
    StmtsAll(a, d);
  }

  lemma StmtsAll(ss: seq<Stmt>, ss': seq<Stmt>)
    requires forall c: Ctx, fuel: nat, last: Value, s: State :: AgreeStmts(c, fuel, ss, ss', last, s)
    ensures RefinesStmts(ss, ss')
  {
    hide AgreeStmts;
  }

  lemma ExprSelf(e: Expr)
    ensures RefinesExpr(e, e)
  {
    hide Suited, EvalExpr, TypedExpr;
  }

  lemma StmtSelf(st: Stmt)
    ensures RefinesStmt(st, st)
  {
    hide Suited, EvalStmt, TypedStmt;
  }

  lemma StmtsSelf(ss: seq<Stmt>)
    ensures RefinesStmts(ss, ss)
  {
    hide Suited, EvalStmts, TypedStmts;
  }

  // ---- the local rules ----

  lemma TypedPrimsAt(c: Ctx, op: BinOp, a: Value, b: Value)
    requires Suited(c)
    ensures Known(op) ==> Expected(op, a, b, c.prims.bin(op, a, b))
    ensures c.prims.neg(a) == if a.Int? then Checked(-a.n) else None
    ensures c.prims.truthy(a) == Truth(a)
  {
    hide Typed, Expected;
  }

  lemma LitMeans(c: Ctx, fuel: nat, u: bool, v: Value, s: State)
    ensures EvalExpr(c, fuel, Lit(v), s) == Res(Norm(v), s) && TypedExpr(c, fuel, u, Lit(v), s)
  {
  }

  lemma BinMeans(c: Ctx, fuel: nat, u: bool, op: BinOp, l: Expr, r: Expr, s: State)
    ensures var x := EvalExpr(c, fuel, l, s);
      var y := EvalExpr(c, fuel, r, x.st);
      EvalExpr(c, fuel, Bin(op, l, r), s) ==
        if !x.o.Norm? then x
        else if !NeedsRight(c.prims, op, x.o.v) then x
        else if Logical(op) || !y.o.Norm? then y
        else Lift(c.prims.bin(op, x.o.v, y.o.v), y.st)
    ensures var x := EvalExpr(c, fuel, l, s);
      var y := EvalExpr(c, fuel, r, x.st);
      TypedExpr(c, fuel, u, Bin(op, l, r), s) <==>
        && TypedExpr(c, fuel, Under(op, u, r), l, s)
        && (x.o.Norm? ==>
              (NeedsRight(c.prims, op, x.o.v) ==> TypedExpr(c, fuel, Under(op, u, l), r, x.st) && (y.o.Norm? ==> Fits(op, l, r, x.o.v, y.o.v))))
  {
  }

  lemma UnMeans(c: Ctx, fuel: nat, u: bool, op: UnOp, x: Expr, s: State)
    ensures var v := EvalExpr(c, fuel, x, s);
      EvalExpr(c, fuel, Un(op, x), s) ==
        if !v.o.Norm? then v
        else if op.Not? then Res(Norm(Bool(!c.prims.truthy(v.o.v))), v.st)
        else Lift(c.prims.neg(v.o.v), v.st)
    ensures var v := EvalExpr(c, fuel, x, s);
      TypedExpr(c, fuel, u, Un(op, x), s) <==> TypedExpr(c, fuel, u || op.Not?, x, s) && (u && op.Not? && v.o.Norm? ==> v.o.v.Bool?)
  {
  }

  // The condition below a ! implies the other.
  lemma {:induction false} LessStrict(c: Ctx, fuel: nat, u: bool, u': bool, e: Expr, s: State)
    requires TypedExpr(c, fuel, u, e, s) && (u' ==> u)
    ensures TypedExpr(c, fuel, u', e, s)
    decreases fuel, e
  {
    hide EvalExpr;
    match e
    case Bin(op, l, r) =>
      BinMeans(c, fuel, u, op, l, r, s);
      BinMeans(c, fuel, u', op, l, r, s);
      LessStrict(c, fuel, Under(op, u, r), Under(op, u', r), l, s);
      var x := EvalExpr(c, fuel, l, s);
      if x.o.Norm? && NeedsRight(c.prims, op, x.o.v) { LessStrict(c, fuel, Under(op, u, l), Under(op, u', l), r, x.st); }
    case Un(op, x) => LessStrict(c, fuel, u || op.Not?, u' || op.Not?, x, s);
    case Loop(b) =>
      if fuel > 0 {
        var r := EvalBlock(c, fuel, b, s);
        if r.o.Norm? || r.o.Cont? { LessStrict(c, fuel - 1, u, u', e, r.st); }
      }
    case _ =>
  }

  lemma LiteralConstant(e: Expr)
    requires e.Lit?
    ensures Constant(e)
  {
  }

  lemma BinConstant(op: BinOp, l: Expr, r: Expr)
    ensures Constant(Bin(op, l, r)) <==> Constant(l) && Constant(r)
    ensures (l.Lit? ==> Constant(l)) && (r.Lit? ==> Constant(r))
  {
  }

  lemma KeptLeft(op: BinOp, l: Expr, r: Expr)
    requires r.Lit?
    requires match op
             case Add => IsZero(r) case Sub => IsZero(r) case Mul => IsOne(r) case Div => IsOne(r)
             case And => IsBool(r, true) case Or => IsBool(r, false) case _ => false
    ensures RefinesExpr(Bin(op, l, r), l)
  {
    hide Suited, EvalExpr, TypedExpr, Constant;
    BinConstant(op, l, r);
    forall c: Ctx, fuel: nat, u: bool, s: State ensures AgreeExpr(c, fuel, u, Bin(op, l, r), l, s) {
      if Suited(c) && TypedExpr(c, fuel, u, Bin(op, l, r), s) && !EvalExpr(c, fuel, Bin(op, l, r), s).o.Fail? {
        SuitedMode(c);
        BinMeans(c, fuel, u, op, l, r, s);
        var x := EvalExpr(c, fuel, l, s);
        LitMeans(c, fuel, u, r.value, x.st);
        if x.o.Norm? { TypedPrimsAt(c, op, x.o.v, r.value); }
      }
    }
    RefinesAll(Bin(op, l, r), l);
  }

  lemma KeptRight(op: BinOp, l: Expr, r: Expr)
    requires match op
             case Add => IsZero(l) case Mul => IsOne(l) case And => IsBool(l, true) case Or => IsBool(l, false) case _ => false
    ensures RefinesExpr(Bin(op, l, r), r)
  {
    hide Suited, EvalExpr, TypedExpr, Constant;
    BinConstant(op, l, r);
    forall c: Ctx, fuel: nat, u: bool, s: State ensures AgreeExpr(c, fuel, u, Bin(op, l, r), r, s) {
      if Suited(c) && TypedExpr(c, fuel, u, Bin(op, l, r), s) && !EvalExpr(c, fuel, Bin(op, l, r), s).o.Fail? {
        SuitedMode(c);
        BinMeans(c, fuel, u, op, l, r, s);
        LitMeans(c, fuel, u, l.value, s);
        var y := EvalExpr(c, fuel, r, s);
        if y.o.Norm? { TypedPrimsAt(c, op, l.value, y.o.v); }
      }
    }
    RefinesAll(Bin(op, l, r), r);
  }

  lemma ComparedRefines(op: BinOp, l: Expr, r: Expr)
    requires Compared(op, l, r).Some?
    ensures RefinesExpr(Bin(op, l, r), Compared(op, l, r).value)
  {
    hide AgreeExpr;
    var e := Compared(op, l, r).value;
    forall c: Ctx, fuel: nat, u: bool, s: State ensures AgreeExpr(c, fuel, u, Bin(op, l, r), e, s) {
      if BoolLit(r) { ComparedLeft(op, l, r, c, fuel, u, s); } else { ComparedOther(op, l, r, c, fuel, u, s); }
    }
    RefinesAll(Bin(op, l, r), e);
  }

  lemma ComparedLeft(op: BinOp, l: Expr, r: Expr, c: Ctx, fuel: nat, u: bool, s: State)
    requires Compared(op, l, r).Some? && BoolLit(r)
    ensures AgreeExpr(c, fuel, u, Bin(op, l, r), Compared(op, l, r).value, s)
  {
    hide Suited, EvalExpr, TypedExpr, Constant;
    if Suited(c) && TypedExpr(c, fuel, u, Bin(op, l, r), s) && !EvalExpr(c, fuel, Bin(op, l, r), s).o.Fail? {
      LiteralConstant(r);
      SuitedMode(c);
      BinMeans(c, fuel, u, op, l, r, s);
      LessStrict(c, fuel, true, u, l, s);
      var x := EvalExpr(c, fuel, l, s);
      LitMeans(c, fuel, u, r.value, x.st);
      if x.o.Norm? { TypedPrimsAt(c, op, x.o.v, r.value); }
      UnMeans(c, fuel, u, Not, l, s);
    }
  }

  lemma ComparedOther(op: BinOp, l: Expr, r: Expr, c: Ctx, fuel: nat, u: bool, s: State)
    requires Compared(op, l, r).Some? && BoolLit(l) && !BoolLit(r)
    ensures AgreeExpr(c, fuel, u, Bin(op, l, r), Compared(op, l, r).value, s)
  {
    hide Suited, EvalExpr, TypedExpr, Constant;
    if Suited(c) && TypedExpr(c, fuel, u, Bin(op, l, r), s) && !EvalExpr(c, fuel, Bin(op, l, r), s).o.Fail? {
      LiteralConstant(l);
      SuitedMode(c);
      BinMeans(c, fuel, u, op, l, r, s);
      LitMeans(c, fuel, u, l.value, s);
      LessStrict(c, fuel, true, u, r, s);
      var y := EvalExpr(c, fuel, r, s);
      if y.o.Norm? { TypedPrimsAt(c, op, l.value, y.o.v); }
      UnMeans(c, fuel, u, Not, r, s);
    }
  }

  lemma LiteralRefines(op: BinOp, l: Expr, r: Expr)
    requires FoldBinary(op, l, r).Some?
    ensures RefinesExpr(Bin(op, l, r), FoldBinary(op, l, r).value)
  {
    hide Suited, EvalExpr, TypedExpr, Typed, Constant, Under;
    var e := FoldBinary(op, l, r).value;
    BinConstant(op, l, r);
    forall c: Ctx, fuel: nat, u: bool, s: State ensures AgreeExpr(c, fuel, u, Bin(op, l, r), e, s) {
      if Suited(c) {
        SuitedMode(c);
        BinMeans(c, fuel, u, op, l, r, s);
        LitMeans(c, fuel, u, l.value, s);
        LitMeans(c, fuel, u, r.value, s);
        LitMeans(c, fuel, u, e.value, s);
        TypedPrimsAt(c, op, l.value, r.value);
        TypedKnown(op, l.value, r.value);
      }
    }
    RefinesAll(Bin(op, l, r), e);
  }

  lemma TypedKnown(op: BinOp, a: Value, b: Value)
    ensures Typed(op, a, b).Some? ==> Known(op)
  {
  }

  lemma UnaryRefines(op: UnOp, x: Expr)
    ensures RefinesExpr(Un(op, x), Simplify(Un(op, x)))
  {
    hide Suited, EvalExpr, TypedExpr;
    var e, e' := Un(op, x), Simplify(Un(op, x));
    forall c: Ctx, fuel: nat, u: bool, s: State ensures AgreeExpr(c, fuel, u, e, e', s) {
      if Suited(c) && TypedExpr(c, fuel, u, e, s) && !EvalExpr(c, fuel, e, s).o.Fail? {
        SuitedMode(c);
        UnMeans(c, fuel, u, op, x, s);
        if x.Lit? {
          LitMeans(c, fuel, u, x.value, s);
          if e'.Lit? { LitMeans(c, fuel, u, e'.value, s); }
          TypedPrimsAt(c, Add, x.value, Null);
        } else if x.Un? {
          UnMeans(c, fuel, u || op.Not?, x.uop, x.operand, s);
          if op == x.uop && op.Not? { LessStrict(c, fuel, true, u, x.operand, s); }
          var v := EvalExpr(c, fuel, x.operand, s);
          if v.o.Norm? { DoubleNegation(c, op, v.o.v); }
        }
      }
    }
    RefinesAll(e, e');
  }

  lemma DoubleNegation(c: Ctx, op: UnOp, v: Value)
    requires Suited(c)
    ensures op.Neg? && c.prims.neg(v).Some? && c.prims.neg(c.prims.neg(v).value).Some? ==>
      c.prims.neg(c.prims.neg(v).value) == Some(v)
    ensures op.Not? && v.Bool? ==> Bool(!c.prims.truthy(Bool(!c.prims.truthy(v)))) == v
  {
    TypedPrimsAt(c, Add, v, Null);
    if c.prims.neg(v).Some? { TypedPrimsAt(c, Add, c.prims.neg(v).value, Null); }
    SuitedMode(c);
  }

  lemma BinaryRefines(op: BinOp, l: Expr, r: Expr)
    ensures RefinesExpr(Bin(op, l, r), Simplify(Bin(op, l, r)))
  {
    hide RefinesExpr;
    if Kept(op, l, r).Some? {
      KeptRefines(op, l, r);
    } else if Compared(op, l, r).Some? {
      ComparedRefines(op, l, r);
    } else if FoldBinary(op, l, r).Some? {
      LiteralRefines(op, l, r);
    } else {
      ExprSelf(Bin(op, l, r));
    }
  }

  lemma KeptRefines(op: BinOp, l: Expr, r: Expr)
    requires Kept(op, l, r).Some?
    ensures RefinesExpr(Bin(op, l, r), Kept(op, l, r).value)
  {
    hide RefinesExpr;
    var right := match op
      case Add => !IsZero(r) case Mul => !IsOne(r) case And => IsBool(l, true) case Or => IsBool(l, false) case _ => false;
    if right {
      KeptRight(op, l, r);
    } else {
      KeptLeft(op, l, r);
    }
  }

  lemma BranchRefines(x: Expr, t: Block, f: Option<Block>)
    ensures RefinesExpr(If(x, t, f), Simplify(If(x, t, f)))
  {
    hide Suited, EvalBlock, TypedBlock;
    var e, e' := If(x, t, f), Simplify(If(x, t, f));
    forall c: Ctx, fuel: nat, u: bool, s: State ensures AgreeExpr(c, fuel, u, e, e', s) {
    }
    RefinesAll(e, e');
  }

  // ---- code after a jump ----

  ghost predicate Only(stop: Stmt -> bool) {
    forall st :: stop(st) ==> Jumps(st)
  }

  lemma JumpEnds(c: Ctx, fuel: nat, st: Stmt, s: State)
    requires Jumps(st)
    ensures !EvalStmt(c, fuel, st, s).o.Norm?
  {
    hide EvalExpr;
  }

  // What follows a jump is never reached.
  lemma {:induction false} UpToSame(ss: seq<Stmt>, stop: Stmt -> bool, c: Ctx, fuel: nat, last: Value, s: State)
    requires Only(stop)
    ensures EvalStmts(c, fuel, UpTo(ss, stop), last, s) == EvalStmts(c, fuel, ss, last, s)
    ensures TypedStmts(c, fuel, ss, s) ==> TypedStmts(c, fuel, UpTo(ss, stop), s)
    ensures (exists i :: 0 <= i < |ss| && stop(ss[i])) ==> !EvalStmts(c, fuel, ss, last, s).o.Norm?
    decreases |ss|
  {
    hide EvalStmt, TypedStmt;
    if ss != [] {
      var r := EvalStmt(c, fuel, ss[0], s);
      if stop(ss[0]) {
        JumpEnds(c, fuel, ss[0], s);
        assert [ss[0]][1..] == [];
      } else {
        UpToSame(ss[1..], stop, c, fuel, if r.o.Norm? then r.o.v else last, r.st);
        assert ([ss[0]] + UpTo(ss[1..], stop))[1..] == UpTo(ss[1..], stop);
        if i :| 0 <= i < |ss| && stop(ss[i]) {
          assert ss[1..][i - 1] == ss[i];
        }
      }
    }
  }

  lemma UpToRefines(ss: seq<Stmt>, stop: Stmt -> bool)
    requires Only(stop)
    ensures RefinesStmts(ss, UpTo(ss, stop))
  {
    hide EvalStmts, TypedStmts, Suited;
    forall c: Ctx, fuel: nat, last: Value, s: State ensures AgreeStmts(c, fuel, ss, UpTo(ss, stop), last, s) {
      UpToSame(ss, stop, c, fuel, last, s);
    }
  }

  lemma CutRefines(b: Block)
    ensures RefinesBlock(b, Cut(b))
  {
    hide EvalBody, TypedBody, EvalStmts, TypedStmts, Suited;
    forall c: Ctx, fuel: nat, s: State ensures AgreeBody(c, fuel, b, Cut(b), s) {
      BodyMeans(c, fuel, b, s);
      BodyMeans(c, fuel, Cut(b), s);
      UpToSame(b.stmts, Jumps, c, fuel, Null, s);
    }
  }

  // ---- folding ----

  lemma {:induction false} FoldRefines(e: Expr)
    ensures RefinesExpr(e, Fold(e))
    decreases e, 1
  {
    hide RefinesExpr, RefinesArgs, RefinesBlock, Simplify;
    match e
    case Lit(_) => ExprSelf(e);
    case Var(_) => ExprSelf(e);
    case Bin(op, l, r) =>
      FoldRefines(l);
      FoldRefines(r);
      BinRefines(op, l, r, Fold(l), Fold(r));
      BinaryRefines(op, Fold(l), Fold(r));
      ExprTrans(e, Bin(op, Fold(l), Fold(r)), Fold(e));
    case Un(op, x) =>
      FoldRefines(x);
      UnRefines(op, x, Fold(x));
      UnaryRefines(op, Fold(x));
      ExprTrans(e, Un(op, Fold(x)), Fold(e));
    case Call(fn, args) =>
      FoldArgsRefine(args);
      CallRefines(fn, args, FoldArgs(args));
    case If(x, t, f) =>
      FoldRefines(x);
      FoldBlockRefines(t);
      if f.Some? { FoldBlockRefines(f.value); }
      var f' := if f.Some? then Some(FoldBlock(f.value)) else None;
      IfRefines(x, Fold(x), t, FoldBlock(t), f, f');
      BranchRefines(Fold(x), FoldBlock(t), f');
      ExprTrans(e, If(Fold(x), FoldBlock(t), f'), Fold(e));
    case BlockExpr(b) =>
      FoldBlockRefines(b);
      BlockExprRefines(b, FoldBlock(b));
    case Coalesce(l, r) =>
      FoldRefines(l);
      FoldRefines(r);
      CoalesceRefines(l, r, Fold(l), Fold(r));
    case Loop(b) =>
      FoldBlockRefines(b);
      LoopRefines(b, FoldBlock(b));
  }

  lemma {:induction false} FoldArgsRefine(args: seq<Expr>)
    ensures RefinesArgs(args, FoldArgs(args))
    decreases args, 0
  {
    hide RefinesExpr;
    if args != [] {
      FoldRefines(args[0]);
      FoldArgsRefine(args[1..]);
      ArgsRefine(args[0], Fold(args[0]), args[1..], FoldArgs(args[1..]));
      assert [args[0]] + args[1..] == args;
    }
  }

  lemma {:induction false} FoldBlockRefines(b: Block)
    ensures RefinesBlock(b, FoldBlock(b))
    decreases b, 1
  {
    hide RefinesExpr, RefinesStmts, RefinesBlock, Cut;
    FoldStmtsRefine(b.stmts);
    if b.tail.Some? { FoldRefines(b.tail.value); }
    var whole := Block(FoldStmts(b.stmts), if b.tail.Some? then Some(Fold(b.tail.value)) else None);
    BlockRefines(b, whole);
    CutRefines(whole);
    BlockTrans(b, whole, FoldBlock(b));
  }

  lemma {:induction false} FoldStmtsRefine(ss: seq<Stmt>)
    ensures RefinesStmts(ss, FoldStmts(ss))
    decreases ss, 0
  {
    hide RefinesStmt, RefinesStmts;
    if ss == [] {
      StmtsSelf(ss);
    } else {
      FoldStmtRefines(ss[0]);
      FoldStmtsRefine(ss[1..]);
      StmtsRefine(ss[0], FoldStmt(ss[0]), ss[1..], FoldStmts(ss[1..]));
      assert [ss[0]] + ss[1..] == ss;
    }
  }

  lemma {:induction false} FoldStmtRefines(st: Stmt)
    ensures RefinesStmt(st, FoldStmt(st))
    decreases st, 1
  {
    hide RefinesExpr, RefinesStmt, RefinesBlock;
    match st
    case Let(_, e) => FoldRefines(e); OperandRefines(st, e, Fold(e));
    case Assign(_, e) => FoldRefines(e); OperandRefines(st, e, Fold(e));
    case Output(e) => FoldRefines(e); OperandRefines(st, e, Fold(e));
    case ExprStmt(e) => FoldRefines(e); OperandRefines(st, e, Fold(e));
    case Throw(e) => FoldRefines(e); OperandRefines(st, e, Fold(e));
    case Return(e) =>
      if e.Some? { FoldRefines(e.value); OperandRefines(st, e.value, Fold(e.value)); } else { StmtSelf(st); }
    case While(c, b) => FoldRefines(c); FoldBlockRefines(b); WhileRefines(c, Fold(c), b, FoldBlock(b));
    case DoWhile(b, c) => FoldRefines(c); FoldBlockRefines(b); DoWhileRefines(c, Fold(c), b, FoldBlock(b));
    case FnDef(d) => DefinitionRefines(d, FoldBlock(d.body));
    case Break => StmtSelf(st);
    case Continue => StmtSelf(st);
  }

  // Where it stands, a definition does the same whatever its body.
  lemma DefinitionRefines(d: FnDecl, b: Block)
    ensures RefinesStmt(FnDef(d), FnDef(d.(body := b)))
  {
  }

  // ---- trimming and refolding ----

  lemma {:induction false} TrimBlockRefines(b: Block)
    ensures RefinesBlock(b, TrimBlock(b))
    decreases b, 1
  {
    hide RefinesStmts, RefinesExpr;
    TrimStmtsRefine(b.stmts);
    UpToRefines(TrimStmts(b.stmts), Ends);
    StmtsTrans(b.stmts, TrimStmts(b.stmts), UpTo(TrimStmts(b.stmts), Ends));
    if b.tail.Some? { ExprSelf(b.tail.value); }
    BlockRefines(b, TrimBlock(b));
  }

  lemma {:induction false} TrimStmtsRefine(ss: seq<Stmt>)
    ensures RefinesStmts(ss, TrimStmts(ss))
    decreases ss, 0
  {
    hide RefinesStmt, RefinesStmts;
    if ss == [] {
      StmtsSelf(ss);
    } else {
      TrimStmtRefines(ss[0]);
      TrimStmtsRefine(ss[1..]);
      StmtsRefine(ss[0], TrimStmt(ss[0]), ss[1..], TrimStmts(ss[1..]));
      assert [ss[0]] + ss[1..] == ss;
    }
  }

  lemma {:induction false} TrimStmtRefines(st: Stmt)
    ensures RefinesStmt(st, TrimStmt(st))
    decreases st, 1
  {
    hide RefinesExpr, RefinesStmt, RefinesBlock;
    match st
    case While(c, b) => TrimBlockRefines(b); ExprSelf(c); WhileRefines(c, c, b, TrimBlock(b));
    case DoWhile(b, c) => TrimBlockRefines(b); ExprSelf(c); DoWhileRefines(c, c, b, TrimBlock(b));
    case FnDef(d) => DefinitionRefines(d, TrimBlock(d.body));
    case _ => StmtSelf(st);
  }

  // Dead-code removal keeps every run, whatever its operands are and however it ends.
  lemma {:induction false} TrimBodySame(c: Ctx, fuel: nat, b: Block, s: State)
    ensures EvalBody(c, fuel, TrimBlock(b), s) == EvalBody(c, fuel, b, s)
    decreases b, 1
  {
    hide EvalBody, EvalStmts, EvalExpr, TypedBody, TypedStmts, TypedExpr;
    BodyMeans(c, fuel, b, s);
    BodyMeans(c, fuel, TrimBlock(b), s);
    TrimStmtsSame(c, fuel, b.stmts, Null, s);
    UpToSame(TrimStmts(b.stmts), Ends, c, fuel, Null, s);
  }

  lemma {:induction false} TrimStmtsSame(c: Ctx, fuel: nat, ss: seq<Stmt>, last: Value, s: State)
    ensures EvalStmts(c, fuel, TrimStmts(ss), last, s) == EvalStmts(c, fuel, ss, last, s)
    decreases ss, 0
  {
    hide EvalStmt, TrimStmt;
    if ss != [] {
      TrimStmtSame(c, fuel, ss[0], s);
      assert TrimStmts(ss)[1..] == TrimStmts(ss[1..]);
      var r := EvalStmt(c, fuel, ss[0], s);
      if r.o.Norm? { TrimStmtsSame(c, fuel, ss[1..], r.o.v, r.st); }
    }
  }

  lemma {:induction false} TrimStmtSame(c: Ctx, fuel: nat, st: Stmt, s: State)
    ensures EvalStmt(c, fuel, TrimStmt(st), s) == EvalStmt(c, fuel, st, s)
    decreases st, 2
  {
    hide EvalWhile, EvalDoWhile;
    if st.While? {
      TrimWhileSame(c, fuel, st, Null, s);
    } else if st.DoWhile? {
      TrimDoWhileSame(c, fuel, st, Null, s);
    }
  }

  lemma {:induction false} TrimWhileSame(c: Ctx, fuel: nat, st: Stmt, last: Value, s: State)
    requires st.While?
    ensures EvalWhile(c, fuel, TrimStmt(st), last, s) == EvalWhile(c, fuel, st, last, s)
    decreases st, 1, fuel
  {
    hide TrimBlock, EvalBody;
    if fuel > 0 {
      var x := EvalExpr(c, fuel, st.cond, s);
      TrimBodySame(c, fuel, st.body, PushScope(x.st));
      var b := EvalBlock(c, fuel, st.body, x.st);
      TrimWhileSame(c, fuel - 1, st, if b.o.Norm? then b.o.v else last, b.st);
    }
  }

  lemma {:induction false} TrimDoWhileSame(c: Ctx, fuel: nat, st: Stmt, last: Value, s: State)
    requires st.DoWhile?
    ensures EvalDoWhile(c, fuel, TrimStmt(st), last, s) == EvalDoWhile(c, fuel, st, last, s)
    decreases st, 1, fuel
  {
    hide TrimBlock, EvalBody;
    if fuel > 0 {
      TrimBodySame(c, fuel, st.body, PushScope(s));
      var b := EvalBlock(c, fuel, st.body, s);
      var x := EvalExpr(c, fuel, st.cond, b.st);
      TrimDoWhileSame(c, fuel - 1, st, if b.o.Norm? then b.o.v else last, x.st);
    }
  }

  lemma {:induction false} RefoldBlockRefines(b: Block)
    ensures RefinesBlock(b, RefoldBlock(b))
    decreases b, 1
  {
    hide RefinesStmts, RefinesExpr;
    RefoldStmtsRefine(b.stmts);
    if b.tail.Some? { ExprSelf(b.tail.value); }
    BlockRefines(b, RefoldBlock(b));
  }

  lemma {:induction false} RefoldStmtsRefine(ss: seq<Stmt>)
    ensures RefinesStmts(ss, RefoldStmts(ss))
    decreases ss, 0
  {
    hide RefinesStmt, RefinesStmts;
    if ss == [] {
      StmtsSelf(ss);
    } else {
      var inner := RefoldInner(ss[0]);
      RefoldInnerRefines(ss[0]);
      FoldStmtRefines(inner);
      StmtTrans(ss[0], inner, FoldStmt(inner));
      RefoldStmtsRefine(ss[1..]);
      StmtsRefine(ss[0], FoldStmt(inner), ss[1..], RefoldStmts(ss[1..]));
      assert [ss[0]] + ss[1..] == ss;
    }
  }

  lemma {:induction false} RefoldInnerRefines(st: Stmt)
    ensures RefinesStmt(st, RefoldInner(st))
    decreases st, 1
  {
    hide RefinesExpr, RefinesStmt, RefinesBlock;
    match st
    case While(c, b) => RefoldBlockRefines(b); ExprSelf(c); WhileRefines(c, c, b, RefoldBlock(b));
    case DoWhile(b, c) => RefoldBlockRefines(b); ExprSelf(c); DoWhileRefines(c, c, b, RefoldBlock(b));
    case FnDef(d) => DefinitionRefines(d, RefoldBlock(d.body));
    case _ => StmtSelf(st);
  }

  lemma {:induction false} RefoldTopRefines(p: Program)
    ensures RefinesStmts(p, RefoldTop(p))
  {
    hide RefinesStmt, RefinesStmts;
    if p == [] {
      StmtsSelf(p);
    } else {
      var st := RefoldTop(p)[0];
      if p[0].FnDef? { DefinitionRefines(p[0].decl, RefoldBlock(p[0].decl.body)); } else { StmtSelf(p[0]); }
      RefoldTopRefines(p[1..]);
      StmtsRefine(p[0], st, p[1..], RefoldTop(p[1..]));
      assert [p[0]] + p[1..] == p;
    }
  }

  lemma OptimizeRefines(p: Program)
    ensures RefinesStmts(p, Optimize(p))
  {
    hide RefinesStmts;
    FoldStmtsRefine(p);
    TrimStmtsRefine(FoldStmts(p));
    StmtsTrans(p, FoldStmts(p), TrimStmts(FoldStmts(p)));
    RefoldTopRefines(TrimStmts(FoldStmts(p)));
    StmtsTrans(p, TrimStmts(FoldStmts(p)), Optimize(p));
  }

  // ---- the functions that calls reach are optimized too ----

  function OptimizeBody(b: Block): Block {
    RefoldBlock(TrimBlock(FoldBlock(b)))
  }

  lemma BodyRefines(b: Block)
    ensures RefinesBlock(b, OptimizeBody(b))
  {
    hide RefinesBlock;
    FoldBlockRefines(b);
    TrimBlockRefines(FoldBlock(b));
    BlockTrans(b, FoldBlock(b), TrimBlock(FoldBlock(b)));
    RefoldBlockRefines(TrimBlock(FoldBlock(b)));
    BlockTrans(b, TrimBlock(FoldBlock(b)), OptimizeBody(b));
  }

  function OptimizeDecl(d: FnDecl): FnDecl {
    d.(body := OptimizeBody(d.body))
  }

  lemma {:induction false} OptimizeAppend(p: Program, st: Stmt)
    ensures |Optimize(p)| == |p|
    ensures exists st' ::
              && Optimize(p + [st]) == Optimize(p) + [st'] && st'.FnDef? == st.FnDef?
              && (st.FnDef? ==> st'.decl == OptimizeDecl(st.decl))
  {
    FoldAppend(p, st);
    TrimAppend(FoldStmts(p), FoldStmt(st));
    RefoldAppend(TrimStmts(FoldStmts(p)), TrimStmt(FoldStmt(st)));
    RefoldLength(TrimStmts(FoldStmts(p)));
  }

  lemma {:induction false} FoldAppend(p: Program, st: Stmt)
    ensures FoldStmts(p + [st]) == FoldStmts(p) + [FoldStmt(st)]
  {
    hide FoldStmt;
    if p == [] {
      assert [] + [st] == [st] && [st][1..] == [];
    } else {
      assert (p + [st])[1..] == p[1..] + [st];
      FoldAppend(p[1..], st);
    }
  }

  lemma {:induction false} TrimAppend(p: Program, st: Stmt)
    ensures TrimStmts(p + [st]) == TrimStmts(p) + [TrimStmt(st)]
  {
    hide TrimStmt;
    if p == [] {
      assert [] + [st] == [st] && [st][1..] == [];
    } else {
      assert (p + [st])[1..] == p[1..] + [st];
      TrimAppend(p[1..], st);
    }
  }

  function RefoldOne(st: Stmt): Stmt {
    if st.FnDef? then FnDef(st.decl.(body := RefoldBlock(st.decl.body))) else st
  }

  lemma {:induction false} RefoldAppend(p: Program, st: Stmt)
    ensures RefoldTop(p + [st]) == RefoldTop(p) + [RefoldOne(st)]
  {
    hide RefoldBlock;
    if p == [] {
      assert [] + [st] == [st] && [st][1..] == [];
    } else {
      assert (p + [st])[1..] == p[1..] + [st];
      RefoldAppend(p[1..], st);
    }
  }

  lemma {:induction false} RefoldLength(p: Program)
    ensures |RefoldTop(p)| == |p|
  {
    if p != [] { RefoldLength(p[1..]); }
  }

  // The functions of the optimized program are the optimized functions.
  lemma {:induction false} FunctionsOptimized(p: Program)
    ensures Functions(Optimize(p)).Keys == Functions(p).Keys
    ensures forall f | f in Functions(p) :: Functions(Optimize(p))[f] == OptimizeDecl(Functions(p)[f])
    decreases |p|
  {
    hide Optimize, OptimizeBody;
    if p == [] {
      assert Optimize(p) == [] by { OptimizeEmpty(); }
    } else {
      var q, st := p[..|p|-1], p[|p|-1];
      assert q + [st] == p;
      FunctionsOptimized(q);
      OptimizeAppend(q, st);
      var st' :| Optimize(p) == Optimize(q) + [st'] && st'.FnDef? == st.FnDef? && (st.FnDef? ==> st'.decl == OptimizeDecl(st.decl));
      assert Optimize(p)[..|p|-1] == Optimize(q);
    }
  }

  lemma OptimizeEmpty()
    ensures Optimize([]) == []
  {
  }

  // `d` is `c` with refined function bodies.
  ghost predicate Refined(c: Ctx, d: Ctx) {
    && Suited(c) && d == c.(funs := d.funs) && d.funs.Keys == c.funs.Keys
    && forall f | f in c.funs ::
         d.funs[f].params == c.funs[f].params && d.funs[f].name == c.funs[f].name && RefinesBlock(c.funs[f].body, d.funs[f].body)
  }

  lemma RefinedParts(c: Ctx, d: Ctx)
    requires Refined(c, d)
    ensures Suited(c) && Suited(d) && d.prims == c.prims && d.captured == c.captured && d.funs.Keys == c.funs.Keys
  {
    hide RefinesBlock;
  }

  lemma {:induction false} SameExpr(c: Ctx, d: Ctx, fuel: nat, u: bool, e: Expr, s: State)
    requires Refined(c, d) && TypedExpr(c, fuel, u, e, s) && !EvalExpr(c, fuel, e, s).o.Fail?
    ensures EvalExpr(d, fuel, e, s) == EvalExpr(c, fuel, e, s) && TypedExpr(d, fuel, u, e, s)
    decreases fuel, e, 2
  {
    hide Refined, Suited;
    RefinedParts(c, d);
    match e
    case Lit(_) =>
    case Var(_) =>
    case Bin(op, l, r) => SameBin(c, d, fuel, u, e, s);
    case Un(uop, x) => SameExpr(c, d, fuel, u || uop.Not?, x, s);
    case Call(_, args) => SameCall(c, d, fuel, u, e, s);
    case If(x, t, f) =>
      SameExpr(c, d, fuel, false, x, s);
      var v := EvalExpr(c, fuel, x, s);
      if v.o == Norm(Bool(true)) {
        SameBlock(c, d, fuel, t, v.st);
      } else if v.o == Norm(Bool(false)) && f.Some? {
        SameBlock(c, d, fuel, f.value, v.st);
      }
    case BlockExpr(b) => SameBlock(c, d, fuel, b, s);
    case Coalesce(l, r) =>
      SameExpr(c, d, fuel, false, l, s);
      var v := EvalExpr(c, fuel, l, s);
      if v.o == Norm(Null) { SameExpr(c, d, fuel, false, r, v.st); }
    case Loop(b) =>
      SameBlock(c, d, fuel, b, s);
      var v := EvalBlock(c, fuel, b, s);
      if v.o.Norm? || v.o.Cont? { SameExpr(c, d, fuel - 1, u, e, v.st); }
  }

  lemma {:induction false} SameBin(c: Ctx, d: Ctx, fuel: nat, u: bool, e: Expr, s: State)
    requires e.Bin? && Refined(c, d) && TypedExpr(c, fuel, u, e, s) && !EvalExpr(c, fuel, e, s).o.Fail?
    ensures EvalExpr(d, fuel, e, s) == EvalExpr(c, fuel, e, s) && TypedExpr(d, fuel, u, e, s)
    decreases fuel, e, 1
  {
    hide Refined, Suited, EvalExpr, TypedExpr;
    RefinedParts(c, d);
    BinMeans(c, fuel, u, e.op, e.left, e.right, s);
    BinMeans(d, fuel, u, e.op, e.left, e.right, s);
    SameExpr(c, d, fuel, Under(e.op, u, e.right), e.left, s);
    var x := EvalExpr(c, fuel, e.left, s);
    if x.o.Norm? && NeedsRight(c.prims, e.op, x.o.v) {
      SameExpr(c, d, fuel, Under(e.op, u, e.left), e.right, x.st);
    }
  }

  lemma {:induction false} SameArgs(c: Ctx, d: Ctx, fuel: nat, args: seq<Expr>, s: State)
    requires Refined(c, d) && TypedArgs(c, fuel, args, s) && !EvalArgs(c, fuel, args, s).o.Fail?
    ensures EvalArgs(d, fuel, args, s) == EvalArgs(c, fuel, args, s) && TypedArgs(d, fuel, args, s)
    decreases fuel, args, 0
  {
    hide Refined;
    if args != [] {
      SameExpr(c, d, fuel, false, args[0], s);
      var x := EvalExpr(c, fuel, args[0], s);
      if x.o.Norm? { SameArgs(c, d, fuel, args[1..], x.st); }
    }
  }

  lemma {:induction false} SameCall(c: Ctx, d: Ctx, fuel: nat, u: bool, e: Expr, s: State)
    requires e.Call? && Refined(c, d) && TypedExpr(c, fuel, u, e, s) && !EvalExpr(c, fuel, e, s).o.Fail?
    ensures EvalExpr(d, fuel, e, s) == EvalExpr(c, fuel, e, s) && TypedExpr(d, fuel, u, e, s)
    decreases fuel, e, 1
  {
    hide Refined, Invoke, TypedInvoke;
    SameArgs(c, d, fuel, e.args, s);
    var a := EvalArgs(c, fuel, e.args, s);
    if a.o.Norm? && fuel > 0 {
      SameInvoke(c, d, fuel - 1, e.fn, a.vs, a.st);
    }
  }

  lemma {:induction false} SameInvoke(c: Ctx, d: Ctx, fuel: nat, fn: string, vs: seq<Value>, s: State)
    requires Refined(c, d) && TypedInvoke(c, fuel, fn, vs, s) && !Invoke(c, fuel, fn, vs, s).o.Fail?
    ensures Invoke(d, fuel, fn, vs, s) == Invoke(c, fuel, fn, vs, s) && TypedInvoke(d, fuel, fn, vs, s)
    decreases fuel
  {
    hide RefinesBlock, Suited, EvalBody, TypedBody, Back;
    RefinedParts(c, d);
    var f, g := c.funs[fn], d.funs[fn];
    var entry := Entry(c, f, vs, s);
    assert Entry(d, g, vs, s) == entry;
    SameBody(c, d, fuel, f.body, entry);
    UseBody(f.body, g.body, d, fuel, entry);
  }

  lemma {:induction false} SameBlock(c: Ctx, d: Ctx, fuel: nat, b: Block, s: State)
    requires Refined(c, d) && TypedBlock(c, fuel, b, s) && !EvalBlock(c, fuel, b, s).o.Fail?
    ensures EvalBlock(d, fuel, b, s) == EvalBlock(c, fuel, b, s) && TypedBlock(d, fuel, b, s)
    decreases fuel, b, 1
  {
    hide Refined, EvalBody, TypedBody;
    SameBody(c, d, fuel, b, PushScope(s));
  }

  lemma {:induction false} SameBody(c: Ctx, d: Ctx, fuel: nat, b: Block, s: State)
    requires Refined(c, d) && TypedBody(c, fuel, b, s) && !EvalBody(c, fuel, b, s).o.Fail?
    ensures EvalBody(d, fuel, b, s) == EvalBody(c, fuel, b, s) && TypedBody(d, fuel, b, s)
    decreases fuel, b, 0
  {
    hide Refined, EvalBody, TypedBody, EvalStmts, TypedStmts, EvalExpr, TypedExpr;
    BodyMeans(c, fuel, b, s);
    BodyMeans(d, fuel, b, s);
    SameStmts(c, d, fuel, b.stmts, Null, s);
    var r := EvalStmts(c, fuel, b.stmts, Null, s);
    if r.o.Norm? && b.tail.Some? { SameExpr(c, d, fuel, false, b.tail.value, r.st); }
  }

  lemma {:induction false} SameStmts(c: Ctx, d: Ctx, fuel: nat, ss: seq<Stmt>, last: Value, s: State)
    requires Refined(c, d) && TypedStmts(c, fuel, ss, s) && !EvalStmts(c, fuel, ss, last, s).o.Fail?
    ensures EvalStmts(d, fuel, ss, last, s) == EvalStmts(c, fuel, ss, last, s) && TypedStmts(d, fuel, ss, s)
    decreases fuel, ss, 0
  {
    hide Refined;
    if ss != [] {
      SameStmt(c, d, fuel, ss[0], s);
      var r := EvalStmt(c, fuel, ss[0], s);
      if r.o.Norm? { SameStmts(c, d, fuel, ss[1..], r.o.v, r.st); }
    }
  }

  lemma {:induction false} SameStmt(c: Ctx, d: Ctx, fuel: nat, st: Stmt, s: State)
    requires Refined(c, d) && TypedStmt(c, fuel, st, s) && !EvalStmt(c, fuel, st, s).o.Fail?
    ensures EvalStmt(d, fuel, st, s) == EvalStmt(c, fuel, st, s) && TypedStmt(d, fuel, st, s)
    decreases fuel, st, 2
  {
    hide Refined, Suited;
    RefinedParts(c, d);
    match st
    case Let(_, e) => SameExpr(c, d, fuel, false, e, s);
    case Assign(_, e) => SameExpr(c, d, fuel, false, e, s);
    case Output(e) => SameExpr(c, d, fuel, false, e, s);
    case ExprStmt(e) => SameExpr(c, d, fuel, false, e, s);
    case Throw(e) => SameExpr(c, d, fuel, false, e, s);
    case Return(e) => if e.Some? { SameExpr(c, d, fuel, false, e.value, s); }
    case While(_, _) => SameWhile(c, d, fuel, st, Null, s);
    case DoWhile(_, _) => SameDoWhile(c, d, fuel, st, Null, s);
    case Break =>
    case Continue =>
    case FnDef(_) =>
  }

  lemma {:induction false} SameWhile(c: Ctx, d: Ctx, fuel: nat, st: Stmt, last: Value, s: State)
    requires st.While? && Refined(c, d) && TypedStmt(c, fuel, st, s) && !EvalWhile(c, fuel, st, last, s).o.Fail?
    ensures EvalWhile(d, fuel, st, last, s) == EvalWhile(c, fuel, st, last, s) && TypedStmt(d, fuel, st, s)
    decreases fuel, st, 1
  {
    hide Refined, Suited;
    SameExpr(c, d, fuel, false, st.cond, s);
    var v := EvalExpr(c, fuel, st.cond, s);
    if v.o == Norm(Bool(true)) {
      SameBlock(c, d, fuel, st.body, v.st);
      var r := EvalBlock(c, fuel, st.body, v.st);
      if r.o.Norm? || r.o.Cont? { SameWhile(c, d, fuel - 1, st, if r.o.Norm? then r.o.v else last, r.st); }
    }
  }

  lemma {:induction false} SameDoWhile(c: Ctx, d: Ctx, fuel: nat, st: Stmt, last: Value, s: State)
    requires st.DoWhile? && Refined(c, d) && TypedStmt(c, fuel, st, s) && !EvalDoWhile(c, fuel, st, last, s).o.Fail?
    ensures EvalDoWhile(d, fuel, st, last, s) == EvalDoWhile(c, fuel, st, last, s) && TypedStmt(d, fuel, st, s)
    decreases fuel, st, 1
  {
    hide Refined, Suited;
    SameBlock(c, d, fuel, st.body, s);
    var r := EvalBlock(c, fuel, st.body, s);
    if r.o.Norm? || r.o.Cont? {
      SameExpr(c, d, fuel, false, st.cond, r.st);
      var v := EvalExpr(c, fuel, st.cond, r.st);
      if v.o == Norm(Bool(true)) { SameDoWhile(c, d, fuel - 1, st, if r.o.Norm? then r.o.v else last, v.st); }
    }
  }

  // ---- whole programs ----

  function OptimizeStmt(st: Stmt): (r: Stmt)
    ensures r.FnDef? == st.FnDef? && r.Let? == st.Let?
  {
    RefoldOne(TrimStmt(FoldStmt(st)))
  }

  lemma OptimizeFirst(p: Program)
    requires p != []
    ensures Optimize(p) == [OptimizeStmt(p[0])] + Optimize(p[1..])
  {
    hide FoldStmt, TrimStmt, RefoldBlock;
    var rest := FoldStmts(p[1..]);
    assert ([FoldStmt(p[0])] + rest)[1..] == rest;
    assert ([TrimStmt(FoldStmt(p[0]))] + TrimStmts(rest))[1..] == TrimStmts(rest);
  }

  lemma OptimizeStmtRefines(st: Stmt)
    ensures RefinesStmt(st, OptimizeStmt(st))
  {
    hide RefinesStmt;
    var a := FoldStmt(st);
    FoldStmtRefines(st);
    TrimStmtRefines(a);
    StmtTrans(st, a, TrimStmt(a));
    var b := TrimStmt(a);
    if b.FnDef? { DefinitionRefines(b.decl, RefoldBlock(b.decl.body)); } else { StmtSelf(b); }
    StmtTrans(st, b, RefoldOne(b));
  }

  // What the interpreter executes at the top level is refined statement by statement.
  lemma {:induction false} CodeRefines(p: Program)
    ensures RefinesStmts(Code(p), Code(Optimize(p)))
    ensures RefinesStmts(Declarations(p), Declarations(Optimize(p)))
  {
    hide RefinesStmt, RefinesStmts, Optimize, OptimizeStmt;
    if p == [] {
      OptimizeEmpty();
      StmtsSelf([]);
    } else {
      OptimizeFirst(p);
      var st := OptimizeStmt(p[0]);
      assert Optimize(p)[1..] == Optimize(p[1..]);
      CodeRefines(p[1..]);
      OptimizeStmtRefines(p[0]);
      if !p[0].FnDef? {
        StmtsRefine(p[0], st, Code(p[1..]), Code(Optimize(p[1..])));
      }
      if p[0].Let? {
        StmtsRefine(p[0], st, Declarations(p[1..]), Declarations(Optimize(p[1..])));
      }
    }
  }

  ghost predicate TypedMain(c: Ctx, fuel: nat, s: State) {
    var d := WithCaptures(c, TopLevel(s));
    && (INIT in c.funs ==> TypedInvoke(d, fuel, INIT, [], s))
    && var i := if INIT in c.funs then Invoke(d, fuel, INIT, [], s) else Res(Norm(Null), s);
      (i.o.Norm? ==> TypedInvoke(d, fuel, MAIN, [], i.st))
  }

  // A run of a whole program that meets no wrong rewriting: no constant boolean compared with a non-boolean, no
  // constant true or false right of && or || where the left operand is a non-boolean that does not decide, no !! on one.
  ghost predicate TypedProgram(prims: Prims, fuel: nat, p: Program) {
    var c := Ctx(prims, Functions(p), map[]);
    if MAIN in c.funs then
      && TypedStmts(c, fuel, Declarations(p), Initial())
      && var d := EvalStmts(c, fuel, Declarations(p), Null, Initial());
        (d.o.Norm? ==> TypedMain(c, fuel, d.st))
    else TypedStmts(c, fuel, Code(p), Initial())
  }

  lemma SameMain(c: Ctx, d: Ctx, fuel: nat, s: State)
    requires Refined(c, d) && TypedMain(c, fuel, s) && !RunMain(c, fuel, s).o.Fail?
    ensures RunMain(d, fuel, s) == RunMain(c, fuel, s)
  {
    hide Refined, Invoke, TypedInvoke;
    RefinedParts(c, d);
    var c', d' := WithCaptures(c, TopLevel(s)), WithCaptures(d, TopLevel(s));
    CapturesRefined(c, d, TopLevel(s));
    var i := if INIT in c.funs then Invoke(c', fuel, INIT, [], s) else Res(Norm(Null), s);
    if INIT in c.funs { SameInvoke(c', d', fuel, INIT, [], s); }
    if i.o.Norm? { SameInvoke(c', d', fuel, MAIN, [], i.st); }
  }

  lemma CapturesRefined(c: Ctx, d: Ctx, top: Scope)
    requires Refined(c, d)
    ensures Refined(WithCaptures(c, top), WithCaptures(d, top))
  {
    hide RefinesBlock;
  }

  // A refined list under refined functions.
  lemma ListSame(c: Ctx, d: Ctx, fuel: nat, ss: seq<Stmt>, ss': seq<Stmt>, s: State)
    requires Refined(c, d) && RefinesStmts(ss, ss') && TypedStmts(c, fuel, ss, s) && !EvalStmts(c, fuel, ss, Null, s).o.Fail?
    ensures EvalStmts(d, fuel, ss', Null, s) == EvalStmts(c, fuel, ss, Null, s)
  {
    hide Refined, Suited, EvalStmts, TypedStmts, RefinesStmts;
    RefinedParts(c, d);
    SameStmts(c, d, fuel, ss, Null, s);
    UseStmts(ss, ss', d, fuel, Null, s);
  }

  lemma FunctionsRefined(prims: Prims, p: Program)
    requires TypedPrims(prims)
    ensures Refined(Ctx(prims, Functions(p), map[]), Ctx(prims, Functions(Optimize(p)), map[]))
  {
    hide RefinesBlock, OptimizeBody, Optimize;
    FunctionsOptimized(p);
    forall f | f in Functions(p) ensures RefinesBlock(Functions(p)[f].body, OptimizeBody(Functions(p)[f].body)) {
      BodyRefines(Functions(p)[f].body);
    }
  }

  // The interpreter runs the optimized program, with or without `main`, to the end it runs the program itself
  // to: the same outcome, value, variables and output.
  lemma OptimizeKeepsMeaning(prims: Prims, fuel: nat, p: Program)
    requires TypedPrims(prims) && TypedProgram(prims, fuel, p) && !Execute(prims, fuel, p).o.Fail?
    ensures Execute(prims, fuel, Optimize(p)) == Execute(prims, fuel, p)
  {
    hide Optimize, EvalStmts, TypedStmts, TypedPrims, RefinesStmts, Refined, RunMain, TypedMain, Code, Declarations;
    var c, d := Ctx(prims, Functions(p), map[]), Ctx(prims, Functions(Optimize(p)), map[]);
    FunctionsRefined(prims, p);
    RefinedParts(c, d);
    CodeRefines(p);
    if MAIN in c.funs {
      ListSame(c, d, fuel, Declarations(p), Declarations(Optimize(p)), Initial());
      var r := EvalStmts(c, fuel, Declarations(p), Null, Initial());
      if r.o.Norm? { SameMain(c, d, fuel, r.st); }
    } else {
      ListSame(c, d, fuel, Code(p), Code(Optimize(p)), Initial());
    }
  }
}
