// Where the readings part ways: for each such construct, exactly when they still agree.
module ReadingsLimits {
  import opened Wrappers
  import opened Syntax
  import opened Values
  import opened Semantics
  import opened Readings
  import opened ReadingsSame
  import N = Interpreter

  // ---- a block without tail ----

  // The interpreter gives the value of the last statement, compiled code null.

  // What a statement is given: its operand's value.  A loop has the value of an iteration.
  function Given(c: N.Ctx, fuel: nat, st: Stmt, s: N.State): Outcome {
    match st
    case Let(_, e) => N.EvalExpr(c, fuel, e, s).o
    case Assign(_, e) => N.EvalExpr(c, fuel, e, s).o
    case Output(e) => N.EvalExpr(c, fuel, e, s).o
    case ExprStmt(e) => N.EvalExpr(c, fuel, e, s).o
    case _ => N.EvalStmt(c, fuel, st, s).o
  }

  // The last statement, in the state the others leave, is given null; or there is none.
  ghost predicate EndsInNull(c: N.Ctx, fuel: nat, ss: seq<Stmt>, s: N.State) {
    ss != [] ==>
      var n := |ss| - 1;
      Given(c, fuel, ss[n], N.EvalStmts(c, fuel, ss[..n], Null, s).st) == Norm(Null)
  }

  lemma GivenValue(c: N.Ctx, fuel: nat, st: Stmt, s: N.State)
    requires N.EvalStmt(c, fuel, st, s).o.Norm?
    ensures Given(c, fuel, st, s) == N.EvalStmt(c, fuel, st, s).o
  {
    hide N.EvalExpr, N.EvalWhile, N.EvalDoWhile;
  }

  lemma {:induction false} LastGives(c: N.Ctx, fuel: nat, ss: seq<Stmt>, last: Value, s: N.State)
    requires ss != [] && N.EvalStmts(c, fuel, ss, last, s).o.Norm?
    ensures var n := |ss| - 1;
      N.EvalStmts(c, fuel, ss, last, s) == N.EvalStmt(c, fuel, ss[n], N.EvalStmts(c, fuel, ss[..n], last, s).st)
  {
    hide N.EvalStmt;
    var r := N.EvalStmt(c, fuel, ss[0], s);
    if |ss| == 1 {
      assert ss[1..] == [] && ss[..0] == [];
    } else {
      var n := |ss| - 1;
      LastGives(c, fuel, ss[1..], r.o.v, r.st);
      assert ss[..n][0] == ss[0] && ss[..n][1..] == ss[1..][..n - 1];
    }
  }

  lemma ValueNull(c: N.Ctx, fuel: nat, ss: seq<Stmt>, s: N.State)
    requires N.EvalStmts(c, fuel, ss, Null, s).o.Norm?
    ensures N.EvalStmts(c, fuel, ss, Null, s).o.v == Null <==> EndsInNull(c, fuel, ss, s)
  {
    hide N.EvalStmt, Given;
    if ss != [] {
      LastGives(c, fuel, ss, Null, s);
      var n := |ss| - 1;
      GivenValue(c, fuel, ss[n], N.EvalStmts(c, fuel, ss[..n], Null, s).st);
    }
  }

  lemma BlockValue(c: N.Ctx, d: Ctx, k: Rules, w: Place, fuel: nat, b: Block, s: N.State, t: State)
    requires Reads(c, d, k, w) && Same(w, k, s, t) && b.tail.None? && TameBlock(c, k, w, false, fuel, b, s)
    requires N.EvalBlock(c, fuel, b, s).o.Norm?
    ensures var x, y := N.EvalBlock(c, fuel, b, s), EvalBlock(d, fuel, b, t);
      && Same(w, k, x.st, y.st)
      && (y.o == x.o <==> EndsInNull(c, fuel, b.stmts, N.PushScope(s)))
  {
    hide Reads, Same, TameBlock, N.EvalStmts, EvalBlock, EndsInNull;
    SameBlock(c, d, k, w, false, fuel, b, s, t);
    NullBlock(d, fuel, b, t);
    ValueNull(c, fuel, b.stmts, N.PushScope(s));
  }

  lemma NullBlock(d: Ctx, fuel: nat, b: Block, t: State)
    requires b.tail.None? && EvalBlock(d, fuel, b, t).o.Norm?
    ensures EvalBlock(d, fuel, b, t).o == Norm(Null)
  {
  }

  // The same of a function: a call gives what its last statement gave, or null.
  lemma CallValue(c: N.Ctx, d: Ctx, k: Rules, w: Place, fuel: nat, fn: string, vs: seq<Value>, s: N.State, t: State)
    requires Reads(c, d, k, w) && Same(w, k, s, t) && TameInvoke(c, k, false, fuel, fn, vs, s)
    requires fn in c.funs && |c.funs[fn].params| == |vs| && c.funs[fn].body.tail.None?
    requires N.Invoke(c, fuel, fn, vs, s).o.Norm?
    ensures var e := N.Entry(c, c.funs[fn], vs, s);
      var b := N.EvalBody(c, fuel, c.funs[fn].body, e);
      var x, y := N.Invoke(c, fuel, fn, vs, s), Invoked(d, fuel, fn, vs, t);
      && Same(w, k, x.st, y.st)
      && (y.o == x.o <==> b.o.Ret? || EndsInNull(c, fuel, c.funs[fn].body.stmts, e))
  {
    hide Reads, Same, N.EvalBody, N.EvalStmts, EvalBody, EvalBlock, EndsInNull, TameBody, N.Entry, N.Back;
    ReadsParts(c, d, k, w);
    SameInvoke(c, d, k, w, false, fuel, fn, vs, s, t);
    var f := c.funs[fn];
    EntrySame(c, d, k, w, f, vs, s, t);
    var a0, b0 := N.Entry(c, f, vs, s), State([ParamScope(f.params, vs)], t.globals, t.out);
    SameBody(c, d.(top := false), k, Inside, false, fuel, f.body, a0, PushScope(b0));
    BlockMeans(d.(top := false), fuel, f.body, b0);
    if EvalBlock(d.(top := false), fuel, f.body, b0).o.Norm? {
      NullBlock(d.(top := false), fuel, f.body, b0);
      BodyValue(c, fuel, f.body, a0);
      ValueNull(c, fuel, f.body.stmts, a0);
    }
  }

  lemma BodyValue(c: N.Ctx, fuel: nat, b: Block, s: N.State)
    requires b.tail.None?
    ensures N.EvalBody(c, fuel, b, s) == N.EvalStmts(c, fuel, b.stmts, Null, s)
  {
  }

  // ---- a jump in the condition of a loop ----

  // Some evaluation of the condition ends in a jump.
  ghost predicate WhileJumps(c: N.Ctx, fuel: nat, st: Stmt, s: N.State)
    requires st.While?
    decreases fuel
  {
    var x := N.EvalExpr(c, fuel, st.cond, s);
    fuel > 0 &&
    (Jump(x.o) || (x.o == Norm(Bool(true)) &&
       var b := N.EvalBlock(c, fuel, st.body, x.st);
       (b.o.Norm? || b.o.Cont?) && WhileJumps(c, fuel - 1, st, b.st)))
  }

  ghost predicate DoWhileJumps(c: N.Ctx, fuel: nat, st: Stmt, s: N.State)
    requires st.DoWhile?
    decreases fuel
  {
    var b := N.EvalBlock(c, fuel, st.body, s);
    fuel > 0 && (b.o.Norm? || b.o.Cont?) &&
    var x := N.EvalExpr(c, fuel, st.cond, b.st);
    (Jump(x.o) || (x.o == Norm(Bool(true)) && DoWhileJumps(c, fuel - 1, st, x.st)))
  }

  lemma {:induction false} WhileLeaves(c: N.Ctx, fuel: nat, st: Stmt, last: Value, s: N.State)
    requires st.While?
    ensures Jump(N.EvalWhile(c, fuel, st, last, s).o) <==> WhileJumps(c, fuel, st, s)
    decreases fuel
  {
    hide N.EvalExpr, N.EvalBlock;
    if fuel > 0 {
      var x := N.EvalExpr(c, fuel, st.cond, s);
      var b := N.EvalBlock(c, fuel, st.body, x.st);
      WhileLeaves(c, fuel - 1, st, if b.o.Norm? then b.o.v else last, b.st);
    }
  }

  lemma {:induction false} DoWhileLeaves(c: N.Ctx, fuel: nat, st: Stmt, last: Value, s: N.State)
    requires st.DoWhile?
    ensures Jump(N.EvalDoWhile(c, fuel, st, last, s).o) <==> DoWhileJumps(c, fuel, st, s)
    decreases fuel
  {
    hide N.EvalExpr, N.EvalBlock;
    if fuel > 0 {
      var b := N.EvalBlock(c, fuel, st.body, s);
      var x := N.EvalExpr(c, fuel, st.cond, b.st);
      DoWhileLeaves(c, fuel - 1, st, if b.o.Norm? then b.o.v else last, x.st);
    }
  }

  // The interpreter lets it go to the loop around this one, a compiled loop catches it.
  lemma WhileCondition(c: N.Ctx, d: Ctx, k: Rules, w: Place, fuel: nat, st: Stmt, s: N.State, t: State)
    requires st.While? && Reads(c, d, k, w) && Same(w, k, s, t) && TameWhile(c, k, w, fuel, st, s)
    requires !N.EvalStmt(c, fuel, st, s).o.Fail?
    ensures var x, y := N.EvalStmt(c, fuel, st, s), EvalStmt(d, fuel, st, t);
      SameOutcome(false, x.o, y.o) && Same(w, k, x.st, y.st) <==> !WhileJumps(c, fuel, st, s)
  {
    hide Reads, Same, TameWhile, N.EvalWhile, WhileJumps;
    WhileLeaves(c, fuel, st, Null, s);
    SameWhile(c, d, k, w, fuel, st, Null, s, t);
  }

  lemma DoWhileCondition(c: N.Ctx, d: Ctx, k: Rules, w: Place, fuel: nat, st: Stmt, s: N.State, t: State)
    requires st.DoWhile? && Reads(c, d, k, w) && Same(w, k, s, t) && TameDoWhile(c, k, w, fuel, st, s)
    requires !N.EvalStmt(c, fuel, st, s).o.Fail?
    ensures var x, y := N.EvalStmt(c, fuel, st, s), EvalStmt(d, fuel, st, t);
      SameOutcome(false, x.o, y.o) && Same(w, k, x.st, y.st) <==> !DoWhileJumps(c, fuel, st, s)
  {
    hide Reads, Same, TameDoWhile, N.EvalDoWhile, DoWhileJumps;
    DoWhileLeaves(c, fuel, st, Null, s);
    SameDoWhile(c, d, k, w, fuel, st, Null, s, t);
  }

  // ---- a `continue` in a do-while loop ----

  // The value and the state with which the interpreter starts the next iteration after this one, if it does.
  function SourceRound(c: N.Ctx, fuel: nat, st: Stmt, last: Value, s: N.State): (r: Option<(Value, N.State)>)
    requires st.DoWhile?
    ensures r.Some? && fuel > 0 ==> N.EvalDoWhile(c, fuel, st, last, s) == N.EvalDoWhile(c, fuel - 1, st, r.value.0, r.value.1)
  {
    var b := N.EvalBlock(c, fuel, st.body, s);
    var x := N.EvalExpr(c, fuel, st.cond, b.st);
    if (b.o.Norm? || b.o.Cont?) && x.o == Norm(Bool(true)) then Some((if b.o.Norm? then b.o.v else last, x.st)) else None
  }

  // The same of the compiled loop.
  function CompiledRound(d: Ctx, fuel: nat, st: Stmt, t: State): (r: Option<State>)
    requires st.DoWhile?
    ensures r.Some? && fuel > 0 ==> EvalStmt(d, fuel, st, t) == EvalStmt(d, fuel - 1, st, r.value)
  {
    var b := EvalBlock(d, fuel, st.body, t);
    var x := EvalExpr(d, fuel, st.cond, b.st);
    if b.o.Cont? && d.mode.Ir? then Some(b.st)
    else if (b.o.Norm? || b.o.Cont?) && (x.o.Cont? || (x.o.Norm? && Decides(d, x.o.v) == Some(true))) then Some(x.st)
    else None
  }

  // After a `continue` the compiled loop always goes on, without the condition.  Both go on from
  // corresponding states if and only if the condition is true and changes nothing.
  lemma ContinueRound(c: N.Ctx, d: Ctx, k: Rules, w: Place, fuel: nat, st: Stmt, last: Value, s: N.State, t: State)
    requires st.DoWhile? && Reads(c, d, k, w) && k.mode.Ir? && Same(w, k, s, t) && TameBlock(c, k, w, false, fuel, st.body, s)
    requires N.EvalBlock(c, fuel, st.body, s).o.Cont? && TameExpr(c, k, w, true, fuel, st.cond, N.EvalBlock(c, fuel, st.body, s).st)
    ensures CompiledRound(d, fuel, st, t).Some?
    ensures var b := N.EvalBlock(c, fuel, st.body, s);
      var x := N.EvalExpr(c, fuel, st.cond, b.st);
      var next := SourceRound(c, fuel, st, last, s);
      next.Some? && Same(w, k, next.value.1, CompiledRound(d, fuel, st, t).value)
      <==> x.o == Norm(Bool(true)) && Unchanged(b.st, x.st)
  {
    hide Reads, Same, N.EvalBlock, N.EvalExpr, EvalBlock, EvalExpr, TameBlock, TameExpr;
    ReadsParts(c, d, k, w);
    SameBlock(c, d, k, w, false, fuel, st.body, s, t);
    var b, m := N.EvalBlock(c, fuel, st.body, s), EvalBlock(d, fuel, st.body, t);
    SameExpr(c, d, k, w, true, fuel, st.cond, b.st, m.st);
    var x := N.EvalExpr(c, fuel, st.cond, b.st);
    if Unchanged(b.st, x.st) { StillSame(w, k, b.st, x.st, m.st); }
    if !x.o.Fail? && Same(w, k, x.st, m.st) {
      SameShape(w, k, b.st, m.st);
      FirstScope(w, b.st, x.st);
      BothSame(w, k, b.st, x.st, m.st);
    }
  }

  // States that correspond to the same state differ at most at the top level below a function.
  lemma BothSame(w: Place, k: Rules, a: N.State, b: N.State, t: State)
    requires Same(w, k, a, t) && Same(w, k, b, t) && (w.Inside? ==> a.scopes[..1] == b.scopes[..1])
    ensures Unchanged(a, b)
  {
    forall i | 0 <= i < |a.scopes| ensures a.scopes[i].vars == b.scopes[i].vars {
      if w.Inside? && i == 0 {
        assert a.scopes[..1][0] == b.scopes[..1][0];
      }
    }
  }

  // ---- && and || where both operands are evaluated ----

  // The operator agrees if and only if the deciding operand is a boolean and a right operand
  // that is not needed ends normally without effect.
  lemma StrictOperator(c: N.Ctx, d: Ctx, k: Rules, w: Place, fuel: nat, e: Expr, s: N.State, t: State)
    requires e.Bin? && Logical(e.op) && k.mode.Vm? && Reads(c, d, k, w) && Same(w, k, s, t)
    requires TameExpr(c, k, w, true, fuel, e.left, s) && N.EvalExpr(c, fuel, e.left, s).o.Norm?
    requires var x := N.EvalExpr(c, fuel, e.left, s);
      TameExpr(c, k, w, true, fuel, e.right, x.st) && !N.EvalExpr(c, fuel, e.right, x.st).o.Fail?
    ensures var x := N.EvalExpr(c, fuel, e.left, s);
      SameRes(w, k, true, s, N.EvalExpr(c, fuel, e, s), EvalExpr(d, fuel, e, t))
      <==> StrictOk(c.prims, e.op, x, N.EvalExpr(c, fuel, e.right, x.st))
  {
    hide Reads, Same, TameExpr;
    ReadsParts(c, d, k, w);
    SameExpr(c, d, k, w, true, fuel, e.left, s, t);
    var x, y := N.EvalExpr(c, fuel, e.left, s), EvalExpr(d, fuel, e.left, t);
    SameExpr(c, d, k, w, true, fuel, e.right, x.st, y.st);
    var x', y' := N.EvalExpr(c, fuel, e.right, x.st), EvalExpr(d, fuel, e.right, y.st);
    if !NeedsRight(c.prims, e.op, x.o.v) && x'.o.Norm? {
      SameShape(w, k, x.st, y.st);
      if Unchanged(x.st, x'.st) { StillSame(w, k, x.st, x'.st, y'.st); }
      if Same(w, k, x.st, y'.st) { FirstScope(w, x.st, x'.st); BothSame(w, k, x.st, x'.st, y'.st); }
    }
  }

  lemma FirstScope(w: Place, a: N.State, b: N.State)
    requires w.Inside? ==> a.scopes != [] && b.scopes != [] && a.scopes[0] == b.scopes[0]
    ensures w.Inside? ==> a.scopes[..1] == b.scopes[..1]
  {
  }
}
