// Bracket structure of emitted code: every fragment is well bracketed, so the
// machine's search for a matching `Else` or `End` passes over it.
module IrBrackets {
  import opened Wrappers
  import opened Syntax
  import opened IrMachine
  import opened IrCodegen

  // Nesting depth after `code`, from depth `d`; `None` when an outer construct is closed or split.
  function Walk(code: seq<Instr>, d: nat): Option<nat> {
    if code == [] then Some(d)
    else if Opens(code[0]) then Walk(code[1..], d + 1)
    else if code[0].End? then (if d == 0 then None else Walk(code[1..], d - 1))
    else if code[0].Else? && d == 0 then None
    else Walk(code[1..], d)
  }

  predicate Balanced(code: seq<Instr>) {
    Walk(code, 0) == Some(0)
  }

  lemma {:induction false} WalkConcat(a: seq<Instr>, b: seq<Instr>, d: nat)
    requires Walk(a, d).Some?
    ensures Walk(a + b, d) == Walk(b, Walk(a, d).value)
  {
    if a == [] {
      assert a + b == b;
    } else {
      assert (a + b)[1..] == a[1..] + b;
      WalkConcat(a[1..], b, if Opens(a[0]) then d + 1 else if a[0].End? then d - 1 else d);
    }
  }

  // Starting deeper only shifts the result.
  lemma {:induction false} WalkShift(code: seq<Instr>, d: nat, extra: nat)
    requires Walk(code, d).Some?
    ensures Walk(code, d + extra) == Some(Walk(code, d).value + extra)
  {
    if code != [] {
      WalkShift(code[1..], if Opens(code[0]) then d + 1 else if code[0].End? then d - 1 else d, extra);
    }
  }

  lemma BalancedConcat(a: seq<Instr>, b: seq<Instr>)
    requires Balanced(a) && Balanced(b)
    ensures Balanced(a + b)
  {
    WalkConcat(a, b, 0);
  }

  // A plain instruction neither opens nor closes a construct.
  predicate Plain(i: Instr) {
    !Opens(i) && !i.End? && !i.Else?
  }

  lemma {:induction false} PlainBalanced(code: seq<Instr>)
    requires forall i :: i in code ==> Plain(i)
    ensures Balanced(code)
  {
    if code != [] {
      assert Plain(code[0]);
      PlainBalanced(code[1..]);
    }
  }

  lemma PlainConcat(a: seq<Instr>, b: seq<Instr>)
    requires Balanced(a) && forall i :: i in b ==> Plain(i)
    ensures Balanced(a + b)
  {
    PlainBalanced(b);
    BalancedConcat(a, b);
  }

  // open ++ a ++ End
  lemma WrapBalanced(open: Instr, a: seq<Instr>)
    requires Opens(open) && Balanced(a)
    ensures Balanced([open] + a + [End])
  {
    assert [open] + a + [End] == [open] + (a + [End]);
    assert ([open] + (a + [End]))[1..] == a + [End];
    WalkShift(a, 0, 1);
    WalkConcat(a, [End], 1);
    assert [End][1..] == [];
  }

  lemma IfElseBalanced(a: seq<Instr>, b: seq<Instr>)
    requires Balanced(a) && Balanced(b)
    ensures Balanced(IfElse(a, b))
  {
    var tail := [Else] + (b + [End]);
    assert IfElse(a, b) == [OpenIf] + (a + tail);
    assert ([OpenIf] + (a + tail))[1..] == a + tail;
    WalkShift(a, 0, 1);
    WalkConcat(a, tail, 1);
    assert tail[1..] == b + [End];
    WalkShift(b, 0, 1);
    WalkConcat(b, [End], 1);
    assert [End][1..] == [];
  }

  lemma InLoopBalanced(body: seq<Instr>)
    requires Balanced(body)
    ensures Balanced([OpenLoop] + body + [End])
    ensures Balanced(InLoop(body))
  {
    WrapBalanced(OpenLoop, body);
    WrapBalanced(OpenBlock, [OpenLoop] + body + [End]);
    assert [OpenBlock] + ([OpenLoop] + body + [End]) + [End] == InLoop(body);
  }

  lemma ShortCircuitBalanced(op: BinOp, t: nat, right: seq<Instr>)
    requires Balanced(right)
    ensures Balanced(Guarded(op, t, right))
    ensures Balanced([OpenBlock] + Guarded(op, t, right) + [End])
    ensures Balanced(ShortCircuit(op, t, right))
  {
    var test := [LocalGet(t)] + SkipTest(op);
    PlainBalanced(test);
    BalancedConcat(test, right);
    PlainConcat(test + right, [LocalSet(t)]);
    var inner := Guarded(op, t, right);
    WrapBalanced(OpenBlock, inner);
    WrapBalanced(OpenBlock, [OpenBlock] + inner + [End]);
    assert [OpenBlock] + ([OpenBlock] + inner + [End]) + [End] == ShortCircuit(op, t, right);
  }

  lemma LogicBalanced(left: seq<Instr>, op: BinOp, t: nat, right: seq<Instr>)
    requires Balanced(left) && Balanced(right)
    ensures Balanced(left + [LocalSet(t)] + ShortCircuit(op, t, right) + [LocalGet(t)])
  {
    ShortCircuitBalanced(op, t, right);
    PlainConcat(left, [LocalSet(t)]);
    BalancedConcat(left + [LocalSet(t)], ShortCircuit(op, t, right));
    PlainConcat(left + [LocalSet(t)] + ShortCircuit(op, t, right), [LocalGet(t)]);
  }

  lemma DefaultBalanced(first: seq<Instr>, t: nat, default: seq<Instr>)
    requires Balanced(first) && Balanced(default)
    ensures Balanced(first + NullTest(t) + IfElse(default, [LocalGet(t)]))
  {
    PlainBalanced([LocalGet(t)]);
    IfElseBalanced(default, [LocalGet(t)]);
    PlainConcat(first, NullTest(t));
    BalancedConcat(first + NullTest(t), IfElse(default, [LocalGet(t)]));
  }

  ghost predicate Segment(whole: seq<Instr>, p: nat, part: seq<Instr>) {
    p + |part| <= |whole| && whole[p..p + |part|] == part
  }

  lemma SegSplit(whole: seq<Instr>, p: nat, a: seq<Instr>, b: seq<Instr>)
    requires Segment(whole, p, a + b)
    ensures Segment(whole, p, a) && Segment(whole, p + |a|, b)
  {
    var s := whole[p..p + |a + b|];
    assert s[..|a|] == a && s[|a|..] == b;
    assert whole[p..p + |a|] == s[..|a|];
    assert whole[p + |a|..p + |a| + |b|] == s[|a|..];
  }

  lemma SegAt(whole: seq<Instr>, p: nat, part: seq<Instr>, i: nat)
    requires Segment(whole, p, part) && i < |part|
    ensures whole[p + i] == part[i]
  {
    assert whole[p..p + |part|][i] == part[i];
  }

  // The searches for `End` and `Else` skip a fragment, adjusting the depth.
  lemma {:induction false} FindSkips(whole: seq<Instr>, p: nat, part: seq<Instr>, d: nat, e: nat)
    requires Segment(whole, p, part) && Walk(part, e).Some?
    ensures FindEnd(whole, p, d + e) == FindEnd(whole, p + |part|, d + Walk(part, e).value)
    ensures FindElse(whole, p, d + e) == FindElse(whole, p + |part|, d + Walk(part, e).value)
    decreases part
  {
    if part != [] {
      assert part == [part[0]] + part[1..];
      SegSplit(whole, p, [part[0]], part[1..]);
      SegAt(whole, p, part, 0);
      if Opens(part[0]) {
        FindSkips(whole, p + 1, part[1..], d, e + 1);
      } else if part[0].End? {
        FindSkips(whole, p + 1, part[1..], d, e - 1);
      } else {
        FindSkips(whole, p + 1, part[1..], d, e);
      }
    }
  }

  // The construct opened just before `p` with body `part` ends right after it.
  lemma EndAfter(whole: seq<Instr>, p: nat, part: seq<Instr>)
    requires Segment(whole, p, part + [End]) && Balanced(part)
    ensures FindEnd(whole, p, 0) == p + |part|
  {
    SegSplit(whole, p, part, [End]);
    SegAt(whole, p + |part|, [End], 0);
    FindSkips(whole, p, part, 0, 0);
  }

  lemma ElseAfter(whole: seq<Instr>, p: nat, part: seq<Instr>)
    requires Segment(whole, p, part + [Else]) && Balanced(part)
    ensures FindElse(whole, p, 0) == p + |part|
  {
    SegSplit(whole, p, part, [Else]);
    SegAt(whole, p + |part|, [Else], 0);
    FindSkips(whole, p, part, 0, 0);
  }

  // ---- every emitted fragment is balanced, construct by construct ----

  lemma {:induction false} ExprBalanced(u: Unit, e: Expr, k: Option<nat>, env: Env)
    requires env.scopes != [] && GenExpr(u, e, k, env).Some?
    ensures Balanced(GenExpr(u, e, k, env).value.code)
    decreases e, 2
  {
    match e
    case Lit(v) => PlainBalanced(GenLit(v, env).code);
    case Var(name) => PlainBalanced(GenRead(u, name, env).code);
    case Bin(op, left, right) => BinBalanced(u, e, k, env);
    case Un(uop, operand) =>
      ExprBalanced(u, operand, k, env);
      PlainConcat(GenExpr(u, operand, k, env).value.code, [if uop.Not? then BoolNot else I64Neg]);
    case Call(fn, args) => CallBalanced(u, e, k, env);
    case If(cond, thn, els) => IfBalanced(u, e, k, env);
    case BlockExpr(block) => BlockBalanced(u, block, k, env);
    case Coalesce(first, default) => CoalesceBalanced(u, e, k, env);
    case Loop(body) => LoopBalanced(u, e, k, env);
  }

  lemma {:induction false} BinBalanced(u: Unit, e: Expr, k: Option<nat>, env: Env)
    requires env.scopes != [] && e.Bin? && GenExpr(u, e, k, env).Some?
    ensures Balanced(GenExpr(u, e, k, env).value.code)
    decreases e, 1
  {
    var op := e.op;
    ExprBalanced(u, e.left, k, env);
    var l := GenExpr(u, e.left, k, env).value;
    if op.And? || op.Or? {
      var mid := WithTemp(l.env);
      var t := TempSlot(mid);
      ExprBalanced(u, e.right, Deeper(k, 2), mid);
      var r := GenExpr(u, e.right, Deeper(k, 2), mid).value;
      LogicBalanced(l.code, op, t, r.code);
    } else {
      ExprBalanced(u, e.right, k, l.env);
      var r := GenExpr(u, e.right, k, l.env).value;
      BalancedConcat(l.code, r.code);
      PlainConcat(l.code + r.code, GenOp(op, r.env).code);
    }
  }

  lemma {:induction false} CallBalanced(u: Unit, e: Expr, k: Option<nat>, env: Env)
    requires env.scopes != [] && e.Call? && GenExpr(u, e, k, env).Some?
    ensures Balanced(GenExpr(u, e, k, env).value.code)
    decreases e, 1
  {
    ArgsBalanced(u, e.args, k, env);
    var a := GenArgs(u, e.args, k, env).value;
    CalleePlain(a.code, u, e.fn, |e.args|, a.env);
  }

  lemma CalleePlain(code: seq<Instr>, u: Unit, fn: string, argc: nat, env: Env)
    requires Balanced(code)
    ensures Balanced(code + GenCallee(u, fn, argc, env).code)
  {
    PlainConcat(code, GenCallee(u, fn, argc, env).code);
  }

  lemma {:induction false} IfBalanced(u: Unit, e: Expr, k: Option<nat>, env: Env)
    requires env.scopes != [] && e.If? && GenExpr(u, e, k, env).Some?
    ensures Balanced(GenExpr(u, e, k, env).value.code)
    decreases e, 1
  {
    ExprBalanced(u, e.cond, k, env);
    var x := GenExpr(u, e.cond, k, env).value;
    BlockBalanced(u, e.thn, Deeper(k, 1), x.env);
    var t := GenBlock(u, e.thn, Deeper(k, 1), x.env).value;
    var f := [PushNull];
    PlainBalanced(f);
    if e.els.Some? {
      BlockBalanced(u, e.els.value, Deeper(k, 1), t.env);
      f := GenBlock(u, e.els.value, Deeper(k, 1), t.env).value.code;
    }
    IfElseBalanced(t.code, f);
    BalancedConcat(x.code, IfElse(t.code, f));
  }

  lemma {:induction false} CoalesceBalanced(u: Unit, e: Expr, k: Option<nat>, env: Env)
    requires env.scopes != [] && e.Coalesce? && GenExpr(u, e, k, env).Some?
    ensures Balanced(GenExpr(u, e, k, env).value.code)
    decreases e, 1
  {
    ExprBalanced(u, e.first, k, env);
    var l := GenExpr(u, e.first, k, env).value;
    var mid := WithTemp(l.env);
    var t := TempSlot(mid);
    ExprBalanced(u, e.default, Deeper(k, 1), mid);
    var r := GenExpr(u, e.default, Deeper(k, 1), mid).value;
    DefaultBalanced(l.code, t, r.code);
  }

  lemma {:induction false} LoopBalanced(u: Unit, e: Expr, k: Option<nat>, env: Env)
    requires env.scopes != [] && e.Loop? && GenExpr(u, e, k, env).Some?
    ensures Balanced(GenExpr(u, e, k, env).value.code)
    decreases e, 1
  {
    BlockBalanced(u, e.body, Some(0), env);
    var b := GenBlock(u, e.body, Some(0), env).value;
    PlainConcat(b.code, [Drop, Br(0)]);
    InLoopBalanced(b.code + [Drop, Br(0)]);
    PlainConcat(InLoop(b.code + [Drop, Br(0)]), [PushNull]);
  }

  lemma {:induction false} ArgsBalanced(u: Unit, args: seq<Expr>, k: Option<nat>, env: Env)
    requires env.scopes != [] && GenArgs(u, args, k, env).Some?
    ensures Balanced(GenArgs(u, args, k, env).value.code)
    decreases args, 0
  {
    if args != [] {
      ExprBalanced(u, args[0], k, env);
      var x := GenExpr(u, args[0], k, env).value;
      ArgsBalanced(u, args[1..], k, x.env);
      BalancedConcat(x.code, GenArgs(u, args[1..], k, x.env).value.code);
    }
  }

  lemma {:induction false} BlockBalanced(u: Unit, b: Block, k: Option<nat>, env: Env)
    ensures GenBlock(u, b, k, env).Some? ==> Balanced(GenBlock(u, b, k, env).value.code)
    ensures GenBody(u, b, k, env).Some? ==> Balanced(GenBody(u, b, k, env).value.code)
    decreases b, 1
  {
    if GenInner(u, b, k, Enter(env)).Some? {
      InnerBalanced(u, b, k, Enter(env));
      var i := GenInner(u, b, k, Enter(env)).value;
      PlainConcat(i.code, if b.tail.None? then [PushNull] else []);
      PlainConcat(i.code, if b.tail.Some? then [Drop] else []);
    }
  }

  lemma {:induction false} InnerBalanced(u: Unit, b: Block, k: Option<nat>, env: Env)
    requires env.scopes != [] && GenInner(u, b, k, env).Some?
    ensures Balanced(GenInner(u, b, k, env).value.code)
    decreases b, 0
  {
    StmtsBalanced(u, b.stmts, k, env);
    if b.tail.Some? {
      var ss := GenStmts(u, b.stmts, k, env).value;
      ExprBalanced(u, b.tail.value, k, ss.env);
      BalancedConcat(ss.code, GenExpr(u, b.tail.value, k, ss.env).value.code);
    }
  }

  lemma {:induction false} StmtsBalanced(u: Unit, ss: seq<Stmt>, k: Option<nat>, env: Env)
    requires env.scopes != [] && GenStmts(u, ss, k, env).Some?
    ensures Balanced(GenStmts(u, ss, k, env).value.code)
    decreases ss, 0
  {
    if ss != [] {
      StmtBalanced(u, ss[0], k, env);
      var x := GenStmt(u, ss[0], k, env).value;
      StmtsBalanced(u, ss[1..], k, x.env);
      BalancedConcat(x.code, GenStmts(u, ss[1..], k, x.env).value.code);
    }
  }

  // A statement that evaluates one expression and then runs plain instructions.
  lemma {:induction false} ThenPlain(u: Unit, e: Expr, k: Option<nat>, env: Env, rest: seq<Instr>)
    requires env.scopes != [] && GenExpr(u, e, k, env).Some?
    requires forall i :: i in rest ==> Plain(i)
    ensures Balanced(GenExpr(u, e, k, env).value.code + rest)
    decreases e, 3
  {
    ExprBalanced(u, e, k, env);
    PlainConcat(GenExpr(u, e, k, env).value.code, rest);
  }

  lemma {:induction false} StmtBalanced(u: Unit, st: Stmt, k: Option<nat>, env: Env)
    requires env.scopes != [] && GenStmt(u, st, k, env).Some?
    ensures Balanced(GenStmt(u, st, k, env).value.code)
    decreases st, 2
  {
    match st
    case Let(name, value) => ThenPlain(u, value, k, env, GenBind(u, name, GenExpr(u, value, k, env).value.env).code);
    case Assign(name, value) => ThenPlain(u, value, k, env, GenWrite(u, name, GenExpr(u, value, k, env).value.env).code);
    case Output(value) => ThenPlain(u, value, k, env, [Print]);
    case ExprStmt(e) => ThenPlain(u, e, k, env, [Drop]);
    case While(cond, body) => WhileBalanced(u, st, k, env);
    case DoWhile(body, cond) => DoWhileBalanced(u, st, k, env);
    case Break => PlainBalanced([Br(k.value + 1)]);
    case Continue => PlainBalanced([Br(k.value)]);
    case Return(_) => ReturnBalanced(u, st, k, env);
    case Throw(value) => ThenPlain(u, value, k, env, [Drop, Unreachable]);
    case FnDef(_) =>
  }

  lemma {:induction false} ReturnBalanced(u: Unit, st: Stmt, k: Option<nat>, env: Env)
    requires st.Return? && env.scopes != [] && GenStmt(u, st, k, env).Some?
    ensures Balanced(GenStmt(u, st, k, env).value.code)
    decreases st, 1
  {
    if st.result.Some? {
      ThenPlain(u, st.result.value, k, env, [Leave]);
    } else {
      PlainBalanced([PushNull, Leave]);
    }
  }

  lemma {:induction false} WhileBalanced(u: Unit, st: Stmt, k: Option<nat>, env: Env)
    requires env.scopes != [] && st.While? && GenStmt(u, st, k, env).Some?
    ensures Balanced(GenStmt(u, st, k, env).value.code)
    decreases st, 1
  {
    var test, back := [BoolNot, BrIf(1)], [Br(0)];
    ThenPlain(u, st.cond, Some(0), env, test);
    var x := GenExpr(u, st.cond, Some(0), env).value;
    BlockBalanced(u, st.body, Some(0), x.env);
    var b := GenBody(u, st.body, Some(0), x.env).value;
    BalancedConcat(x.code + test, b.code);
    PlainConcat(x.code + test + b.code, back);
    InLoopBalanced(x.code + test + b.code + back);
  }

  lemma {:induction false} DoWhileBalanced(u: Unit, st: Stmt, k: Option<nat>, env: Env)
    requires env.scopes != [] && st.DoWhile? && GenStmt(u, st, k, env).Some?
    ensures Balanced(GenStmt(u, st, k, env).value.code)
    decreases st, 1
  {
    var test := [BoolNot, BrIf(1), Br(0)];
    BlockBalanced(u, st.body, Some(0), env);
    var b := GenBody(u, st.body, Some(0), env).value;
    ExprBalanced(u, st.cond, Some(0), b.env);
    var x := GenExpr(u, st.cond, Some(0), b.env).value;
    BalancedConcat(b.code, x.code);
    PlainConcat(b.code + x.code, test);
    InLoopBalanced(b.code + x.code + test);
  }
}
