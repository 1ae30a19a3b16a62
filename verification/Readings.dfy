// When a compiler's reading of a program is the interpreter's.  A run of the interpreter is
// tame if it never meets a construct on which the two part ways; every tame run that ends
// without error has the same outcome and output in the compiler's reading.
module Readings {
  import opened Wrappers
  import opened Syntax
  import opened Values
  import opened Semantics
  import N = Interpreter

  // Which compiler is meant, and the top-level variables that functions may read.
  datatype Rules = Rules(mode: Mode, shared: set<string>)

  // Where a piece of code stands: in the outermost statement list, in a block of it, in a function.
  datatype Place = Outermost | Nested | Inside

  function Down(w: Place): Place {
    if w.Inside? then Inside else Nested
  }

  predicate NameOk(k: Rules, x: string) {
    k.mode.Ir? ==> x != TEMP
  }

  predicate ReadOk(k: Rules, w: Place, x: string, s: N.State) {
    NameOk(k, x) && (w.Inside? && N.Find(s.scopes, x) == Some(0) ==> x in k.shared)
  }

  predicate BindOk(k: Rules, w: Place, x: string) {
    NameOk(k, x) && x != N.NONE && (w.Nested? ==> x !in k.shared)
  }

  predicate WriteOk(k: Rules, w: Place, x: string, s: N.State) {
    NameOk(k, x) && x != N.NONE && if w.Inside? then N.Find(s.scopes, x) != Some(0) else x !in k.shared
  }

  // The same variables with the same values, and the same output.
  predicate Unchanged(a: N.State, b: N.State) {
    |a.scopes| == |b.scopes| && (forall i :: 0 <= i < |a.scopes| ==> a.scopes[i].vars == b.scopes[i].vars) && a.out == b.out
  }

  predicate Jump(o: Outcome) {
    o.Brk? || o.Cont?
  }

  // ---- tame runs; `used` tells whether somebody looks at the value ----

  ghost predicate TameExpr(c: N.Ctx, k: Rules, w: Place, used: bool, fuel: nat, e: Expr, s: N.State)
    decreases fuel, e, 1
  {
    match e
    case Lit(_) => true
    case Var(x) => ReadOk(k, w, x, s)
    case Bin(op, left, right) =>
      TameExpr(c, k, w, true, fuel, left, s) &&
      var x := N.EvalExpr(c, fuel, left, s);
      (x.o.Norm? && (k.mode.Vm? || NeedsRight(c.prims, op, x.o.v)) ==>
         && TameExpr(c, k, w, true, fuel, right, x.st)
         && (k.mode.Vm? && Logical(op) ==> StrictOk(c.prims, op, x, N.EvalExpr(c, fuel, right, x.st))))
    case Un(_, operand) => TameExpr(c, k, w, true, fuel, operand, s)
    case Call(fn, args) =>
      TameArgs(c, k, w, fuel, args, s) &&
      var a := N.EvalArgs(c, fuel, args, s);
      (a.o.Norm? && fuel > 0 ==> TameInvoke(c, k, used, fuel - 1, fn, a.vs, a.st))
    case If(cond, thn, els) =>
      TameExpr(c, k, w, true, fuel, cond, s) &&
      var x := N.EvalExpr(c, fuel, cond, s);
      && (x.o == Norm(Bool(true)) ==> TameBlock(c, k, w, used, fuel, thn, x.st))
      && (x.o == Norm(Bool(false)) && els.Some? ==> TameBlock(c, k, w, used, fuel, els.value, x.st))
    case BlockExpr(block) => TameBlock(c, k, w, used, fuel, block, s)
    case Coalesce(first, default) =>
      TameExpr(c, k, w, true, fuel, first, s) &&
      var x := N.EvalExpr(c, fuel, first, s);
      (x.o == Norm(Null) ==> TameExpr(c, k, w, used, fuel, default, x.st))
    case Loop(body) =>
      fuel > 0 ==>
        TameBlock(c, k, w, false, fuel, body, s) &&
        var b := N.EvalBlock(c, fuel, body, s);
        (b.o.Norm? || b.o.Cont? ==> TameExpr(c, k, w, used, fuel - 1, e, b.st))
  }

  // For a back end that evaluates both operands and makes a boolean: the operand that decides is
  // one, and a right operand that is not needed ends normally and changes nothing.
  predicate StrictOk(p: Prims, op: BinOp, x: N.Res, y: N.Res)
    requires x.o.Norm?
  {
    if NeedsRight(p, op, x.o.v) then y.o.Norm? ==> y.o.v.Bool?
    else x.o.v.Bool? && y.o.Norm? && Unchanged(x.st, y.st)
  }

  ghost predicate TameArgs(c: N.Ctx, k: Rules, w: Place, fuel: nat, args: seq<Expr>, s: N.State)
    decreases fuel, args, 0
  {
    args != [] ==>
      TameExpr(c, k, w, true, fuel, args[0], s) &&
      var x := N.EvalExpr(c, fuel, args[0], s);
      (x.o.Norm? ==> TameArgs(c, k, w, fuel, args[1..], x.st))
  }

  ghost predicate TameInvoke(c: N.Ctx, k: Rules, used: bool, fuel: nat, fn: string, vs: seq<Value>, s: N.State)
    decreases fuel
  {
    fn in c.funs && |c.funs[fn].params| == |vs| ==>
      && (forall x | x in c.funs[fn].params :: BindOk(k, Inside, x))
      && TameBody(c, k, Inside, used, fuel, c.funs[fn].body, N.Entry(c, c.funs[fn], vs, s))
  }

  ghost predicate TameBlock(c: N.Ctx, k: Rules, w: Place, used: bool, fuel: nat, b: Block, s: N.State)
    decreases fuel, b, 1
  {
    TameBody(c, k, Down(w), used, fuel, b, N.PushScope(s))
  }

  // A list without tail must not be used for the value of its last statement.
  ghost predicate TameBody(c: N.Ctx, k: Rules, w: Place, used: bool, fuel: nat, b: Block, s: N.State)
    decreases fuel, b, 0
  {
    TameStmts(c, k, w, fuel, b.stmts, s) &&
    var r := N.EvalStmts(c, fuel, b.stmts, Null, s);
    (r.o.Norm? ==> if b.tail.Some? then TameExpr(c, k, w, used, fuel, b.tail.value, r.st) else used ==> r.o.v == Null)
  }

  ghost predicate TameStmts(c: N.Ctx, k: Rules, w: Place, fuel: nat, ss: seq<Stmt>, s: N.State)
    decreases fuel, ss, 0
  {
    ss != [] ==>
      TameStmt(c, k, w, fuel, ss[0], s) &&
      var r := N.EvalStmt(c, fuel, ss[0], s);
      (r.o.Norm? ==> TameStmts(c, k, w, fuel, ss[1..], r.st))
  }

  // No jump may leave a loop through its condition.
  ghost predicate TameStmt(c: N.Ctx, k: Rules, w: Place, fuel: nat, st: Stmt, s: N.State)
    decreases fuel, st, 1
  {
    match st
    case Let(x, e) => TameExpr(c, k, w, true, fuel, e, s) && BindOk(k, w, x)
    case Assign(x, e) =>
      TameExpr(c, k, w, true, fuel, e, s) &&
      var r := N.EvalExpr(c, fuel, e, s);
      (r.o.Norm? ==> WriteOk(k, w, x, r.st))
    case Output(e) => TameExpr(c, k, w, true, fuel, e, s)
    case ExprStmt(e) => TameExpr(c, k, w, false, fuel, e, s)
    case While(_, _) => TameWhile(c, k, w, fuel, st, s) && !Jump(N.EvalStmt(c, fuel, st, s).o)
    case DoWhile(_, _) => TameDoWhile(c, k, w, fuel, st, s) && !Jump(N.EvalStmt(c, fuel, st, s).o)
    case Return(e) => e.Some? ==> TameExpr(c, k, w, true, fuel, e.value, s)
    case Throw(e) => TameExpr(c, k, w, true, fuel, e, s)
    case Break => true
    case Continue => true
    case FnDef(_) => true
  }

  // The parts of every iteration are tame.
  ghost predicate TameWhile(c: N.Ctx, k: Rules, w: Place, fuel: nat, st: Stmt, s: N.State)
    requires st.While?
    decreases fuel, st, 0
  {
    fuel > 0 ==>
      TameExpr(c, k, w, true, fuel, st.cond, s) &&
      var x := N.EvalExpr(c, fuel, st.cond, s);
      (x.o == Norm(Bool(true)) ==>
         TameBlock(c, k, w, false, fuel, st.body, x.st) &&
         var b := N.EvalBlock(c, fuel, st.body, x.st);
         (b.o.Norm? || b.o.Cont? ==> TameWhile(c, k, w, fuel - 1, st, b.st)))
  }

  // Where a `continue` goes back to the head of the loop, the skipped condition must be true and without effect.
  ghost predicate TameDoWhile(c: N.Ctx, k: Rules, w: Place, fuel: nat, st: Stmt, s: N.State)
    requires st.DoWhile?
    decreases fuel, st, 0
  {
    fuel > 0 ==>
      TameBlock(c, k, w, false, fuel, st.body, s) &&
      var b := N.EvalBlock(c, fuel, st.body, s);
      (b.o.Norm? || b.o.Cont? ==>
         TameExpr(c, k, w, true, fuel, st.cond, b.st) &&
         var x := N.EvalExpr(c, fuel, st.cond, b.st);
         && (b.o.Cont? && k.mode.Ir? ==> x.o == Norm(Bool(true)) && Unchanged(b.st, x.st))
         && (x.o == Norm(Bool(true)) ==> TameDoWhile(c, k, w, fuel - 1, st, x.st)))
  }

  // ---- how the states correspond ----

  // In a function the interpreter keeps parameters and outermost variables in one scope above the
  // top level, where compiled code has a scope for each and does not see the top level.
  ghost predicate ScopesSame(w: Place, a: seq<N.Scope>, b: seq<Scope>) {
    |a| == |b| &&
    if w.Inside? then
      && |a| >= 2 && a[1].vars == b[0] + b[1]
      && forall i :: 2 <= i < |a| ==> a[i].vars == b[i]
    else
      && (if w.Outermost? then |a| == 1 else |a| >= 1)
      && forall i :: 0 <= i < |a| ==> a[i].vars == b[i]
  }

  // What functions may read of the top level is also in a global of that name.
  ghost predicate SharedSame(k: Rules, top: N.Scope, globals: map<string, Value>) {
    forall x | x in k.shared && x in top.vars :: x in globals && globals[x] == top.vars[x]
  }

  // The name of the built-in null is bound nowhere.
  ghost predicate NoneFree(t: State) {
    N.NONE !in t.globals && forall i :: 0 <= i < |t.scopes| ==> N.NONE !in t.scopes[i]
  }

  ghost predicate Same(w: Place, k: Rules, s: N.State, t: State) {
    && ScopesSame(w, s.scopes, t.scopes) && SharedSame(k, s.scopes[0], t.globals) && NoneFree(t)
    && t.out == s.out
  }

  predicate SameOutcome(used: bool, a: Outcome, b: Outcome) {
    if a.Norm? then b.Norm? && (used ==> b.v == a.v) else b == a
  }

  // An error of the interpreter promises nothing.  Inside functions top-level variables do not change.
  ghost predicate SameRes(w: Place, k: Rules, used: bool, s: N.State, a: N.Res, b: Res) {
    a.o.Fail? ||
    (SameOutcome(used, a.o, b.o) && Same(w, k, a.st, b.st) && (w.Inside? ==> s.scopes != [] && a.st.scopes[0] == s.scopes[0]))
  }

  ghost predicate Reads(c: N.Ctx, d: Ctx, k: Rules, w: Place) {
    && d.mode == k.mode && d.prims == c.prims && c.prims.Valid() && d.funs == c.funs && c.captured == map[]
    && d.top == !w.Inside? && (k.mode.Vm? ==> k.shared == {})
    && (forall x | x in k.shared + {N.NONE} :: x !in d.funs && x !in d.builtins)
  }
}
