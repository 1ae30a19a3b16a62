// The rewritings that are not right for every operand: exactly when they are, and programs
// whose output the optimizer changes.
module OptimizerLimits {
  import opened Wrappers
  import opened Syntax
  import opened Values
  import opened Interpreter
  import opened OptimizerTyping
  import opened Optimizer
  import opened OptimizerSound

  // An evaluator for which values of different kinds are different.
  ghost predicate Comparing(p: Prims) {
    && (forall a, b :: p.bin(Eq, a, b) == Some(Bool(a == b)) && p.bin(NotEq, a, b) == Some(Bool(a != b)))
    && (forall v :: p.truthy(v) == Truth(v))
  }

  // The other operand of a comparison with a boolean literal.
  function Subject(l: Expr, r: Expr): Expr {
    if BoolLit(r) then l else r
  }

  function Literal(l: Expr, r: Expr): bool
    requires BoolLit(l) || BoolLit(r)
  {
    if BoolLit(r) then r.value.b else l.value.b
  }

  // x == b and x != b become x or !x.  That is right if and only if x is a boolean, or the result is !x and x is
  // truthy exactly where the operator is ==.
  lemma ComparedRight(c: Ctx, fuel: nat, op: BinOp, l: Expr, r: Expr, s: State)
    requires Comparing(c.prims) && Compared(op, l, r).Some? && EvalExpr(c, fuel, Subject(l, r), s).o.Norm?
    ensures var x := EvalExpr(c, fuel, Subject(l, r), s).o.v;
      EvalExpr(c, fuel, Compared(op, l, r).value, s) == EvalExpr(c, fuel, Bin(op, l, r), s)
      <==> x.Bool? || (Literal(l, r) != op.Eq? && (Truth(x) <==> op.Eq?))
  {
    hide EvalExpr, TypedExpr;
    var e := Subject(l, r);
    var x := EvalExpr(c, fuel, e, s);
    BinMeans(c, fuel, false, op, l, r, s);
    LitMeans(c, fuel, false, Bool(Literal(l, r)), s);
    LitMeans(c, fuel, false, Bool(Literal(l, r)), x.st);
    UnMeans(c, fuel, false, Not, e, s);
  }

  // x && true becomes x: right if and only if x is a boolean or decides the operator.  The same of x || false.
  lemma LogicalRight(c: Ctx, fuel: nat, op: BinOp, e: Expr, s: State)
    requires Logical(op) && EvalExpr(c, fuel, e, s).o.Norm? && forall v :: c.prims.truthy(v) == Truth(v)
    ensures var x := EvalExpr(c, fuel, e, s).o.v;
      EvalExpr(c, fuel, Bin(op, e, Lit(Bool(op.And?))), s) == EvalExpr(c, fuel, e, s) <==> x.Bool? || !NeedsRight(c.prims, op, x)
    ensures !BoolLit(e) ==> Kept(op, e, Lit(Bool(op.And?))) == Some(e)
  {
    hide EvalExpr, TypedExpr;
    BinMeans(c, fuel, false, op, e, Lit(Bool(op.And?)), s);
    LitMeans(c, fuel, false, Bool(op.And?), EvalExpr(c, fuel, e, s).st);
  }

  // true && x and false || x become x, which is right for every x.
  lemma LogicalLeft(c: Ctx, fuel: nat, op: BinOp, e: Expr, s: State)
    requires Logical(op) && forall v :: c.prims.truthy(v) == Truth(v)
    ensures EvalExpr(c, fuel, Bin(op, Lit(Bool(op.And?)), e), s) == EvalExpr(c, fuel, e, s)
    ensures Kept(op, Lit(Bool(op.And?)), e) == Some(e)
  {
    hide EvalExpr, TypedExpr;
    BinMeans(c, fuel, false, op, Lit(Bool(op.And?)), e, s);
    LitMeans(c, fuel, false, Bool(op.And?), s);
  }

  // !!x becomes x: right if and only if x is a boolean.
  lemma NegationRight(c: Ctx, fuel: nat, e: Expr, s: State)
    requires EvalExpr(c, fuel, e, s).o.Norm? && forall v :: c.prims.truthy(v) == Truth(v)
    ensures EvalExpr(c, fuel, Un(Not, Un(Not, e)), s) == EvalExpr(c, fuel, e, s) <==> EvalExpr(c, fuel, e, s).o.v.Bool?
    ensures Simplify(Un(Not, Un(Not, e))) == e
  {
    hide EvalExpr, TypedExpr;
    UnMeans(c, fuel, false, Not, Un(Not, e), s);
    UnMeans(c, fuel, false, Not, e, s);
  }

  // The arithmetic identities are right if and only if the operation does not fail.
  lemma IdentityRight(c: Ctx, fuel: nat, op: BinOp, l: Expr, r: Expr, s: State)
    requires Suited(c) && Kept(op, l, r).Some? && !Logical(op) && EvalExpr(c, fuel, Kept(op, l, r).value, s).o.Norm?
    ensures EvalExpr(c, fuel, Kept(op, l, r).value, s) == EvalExpr(c, fuel, Bin(op, l, r), s)
      <==> !EvalExpr(c, fuel, Bin(op, l, r), s).o.Fail?
  {
    hide EvalExpr, TypedExpr, Suited;
    SuitedMode(c);
    BinMeans(c, fuel, false, op, l, r, s);
    if l.Lit? {
      LitMeans(c, fuel, false, l.value, s);
      var y := EvalExpr(c, fuel, r, s);
      if y.o.Norm? { TypedPrimsAt(c, op, l.value, y.o.v); }
    }
    if r.Lit? {
      var x := EvalExpr(c, fuel, l, s);
      LitMeans(c, fuel, false, r.value, x.st);
      if x.o.Norm? { TypedPrimsAt(c, op, x.o.v, r.value); }
    }
  }

  // ---- programs that print something else ----

  function Prints(e: Expr): Program {
    [Output(e)]
  }

  lemma Printed(prims: Prims, e: Expr, v: Value)
    requires EvalExpr(Ctx(prims, map[], map[]), 0, e, Initial()) == Res(Norm(v), Initial())
    ensures Execute(prims, 0, Prints(e)) == Res(Norm(v), Initial().(out := [prims.show(v)]))
  {
    hide EvalExpr;
    var p := Prints(e);
    assert p[..0] == [] && p[1..] == [];
    assert Functions(p) == map[];
    assert Code(p) == p;
    OutputMeans(Ctx(prims, map[], map[]), e, v);
  }

  lemma OutputMeans(c: Ctx, e: Expr, v: Value)
    requires EvalExpr(c, 0, e, Initial()) == Res(Norm(v), Initial())
    ensures EvalStmts(c, 0, [Output(e)], Null, Initial()) == Res(Norm(v), Initial().(out := [c.prims.show(v)]))
  {
    var st := Output(e);
    assert EvalStmt(c, 0, st, Initial()) == Res(Norm(v), Initial().(out := [c.prims.show(v)]));
    assert [st][1..] == [];
  }

  lemma OptimizedPrints(e: Expr)
    ensures Optimize(Prints(e)) == Prints(Fold(e))
  {
    hide Fold;
    var p, q := Prints(e), Prints(Fold(e));
    assert p[1..] == [] && q[1..] == [];
    assert FoldStmt(p[0]) == q[0] && TrimStmt(q[0]) == q[0];
    assert FoldStmts(p) == q;
    assert TrimStmts(q) == q;
    assert RefoldTop(q) == q;
  }

  // output 5 == true prints false, optimized 5.
  lemma ComparisonChanges(prims: Prims)
    requires Comparing(prims)
    ensures var p := Prints(Bin(Eq, Lit(Int(5)), Lit(Bool(true))));
      Execute(prims, 0, p).st.out == [prims.show(Bool(false))] && Execute(prims, 0, Optimize(p)).st.out == [prims.show(Int(5))]
  {
    hide Execute, Optimize;
    var e := Bin(Eq, Lit(Int(5)), Lit(Bool(true)));
    OptimizedPrints(e);
    assert Fold(e) == Lit(Int(5));
    Printed(prims, e, Bool(false));
    Printed(prims, Lit(Int(5)), Int(5));
  }

  // output 5 && true prints true, optimized 5.
  lemma LogicalChanges(prims: Prims)
    requires Comparing(prims)
    ensures var p := Prints(Bin(And, Lit(Int(5)), Lit(Bool(true))));
      Execute(prims, 0, p).st.out == [prims.show(Bool(true))] && Execute(prims, 0, Optimize(p)).st.out == [prims.show(Int(5))]
  {
    hide Execute, Optimize;
    var e := Bin(And, Lit(Int(5)), Lit(Bool(true)));
    OptimizedPrints(e);
    assert Fold(e) == Lit(Int(5));
    Printed(prims, e, Bool(true));
    Printed(prims, Lit(Int(5)), Int(5));
  }
}
