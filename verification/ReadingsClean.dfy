// A condition on the text of a program under which every one of its runs is tame.
module ReadingsClean {
  import opened Wrappers
  import opened Syntax
  import opened Values
  import opened Semantics
  import opened Readings
  import N = Interpreter

  // ---- a `continue`, or with `brk` also a `break`, that no loop of the fragment itself catches ----

  predicate FreeExpr(brk: bool, e: Expr)
    decreases e, 1
  {
    match e
    case Lit(_) => false
    case Var(_) => false
    case Bin(_, l, r) => FreeExpr(brk, l) || FreeExpr(brk, r)
    case Un(_, x) => FreeExpr(brk, x)
    case Call(_, args) => FreeArgs(brk, args)
    case If(c, t, f) => FreeExpr(brk, c) || FreeBlock(brk, t) || (f.Some? && FreeBlock(brk, f.value))
    case BlockExpr(b) => FreeBlock(brk, b)
    case Coalesce(l, r) => FreeExpr(brk, l) || FreeExpr(brk, r)
    case Loop(_) => false
  }

  predicate FreeArgs(brk: bool, args: seq<Expr>)
    decreases args, 0
  {
    args != [] && (FreeExpr(brk, args[0]) || FreeArgs(brk, args[1..]))
  }

  predicate FreeBlock(brk: bool, b: Block)
    decreases b, 0
  {
    FreeStmts(brk, b.stmts) || (b.tail.Some? && FreeExpr(brk, b.tail.value))
  }

  predicate FreeStmts(brk: bool, ss: seq<Stmt>)
    decreases ss, 0
  {
    ss != [] && (FreeStmt(brk, ss[0]) || FreeStmts(brk, ss[1..]))
  }

  // The interpreter lets a jump out of a loop through its condition.
  predicate FreeStmt(brk: bool, st: Stmt)
    decreases st, 1
  {
    match st
    case Let(_, x) => FreeExpr(brk, x)
    case Assign(_, x) => FreeExpr(brk, x)
    case Output(x) => FreeExpr(brk, x)
    case ExprStmt(x) => FreeExpr(brk, x)
    case While(c, _) => FreeExpr(brk, c)
    case DoWhile(_, c) => FreeExpr(brk, c)
    case Break => brk
    case Continue => true
    case Return(x) => x.Some? && FreeExpr(brk, x.value)
    case Throw(x) => FreeExpr(brk, x)
    case FnDef(_) => false
  }

  predicate Held(brk: bool, o: Outcome) {
    !o.Cont? && (brk ==> !o.Brk?)
  }

  lemma {:induction false} HeldExpr(c: N.Ctx, brk: bool, fuel: nat, e: Expr, s: N.State)
    requires !FreeExpr(brk, e)
    ensures Held(brk, N.EvalExpr(c, fuel, e, s).o)
    decreases fuel, e, 1
  {
    match e
    case Lit(_) =>
    case Var(_) =>
    case Bin(_, l, r) =>
      HeldExpr(c, brk, fuel, l, s);
      HeldExpr(c, brk, fuel, r, N.EvalExpr(c, fuel, l, s).st);
    case Un(_, x) => HeldExpr(c, brk, fuel, x, s);
    case Call(_, args) => HeldArgs(c, brk, fuel, args, s);
    case If(x, t, f) =>
      HeldExpr(c, brk, fuel, x, s);
      HeldBlock(c, brk, fuel, t, N.EvalExpr(c, fuel, x, s).st);
      if f.Some? { HeldBlock(c, brk, fuel, f.value, N.EvalExpr(c, fuel, x, s).st); }
    case BlockExpr(b) => HeldBlock(c, brk, fuel, b, s);
    case Coalesce(l, r) =>
      HeldExpr(c, brk, fuel, l, s);
      HeldExpr(c, brk, fuel, r, N.EvalExpr(c, fuel, l, s).st);
    case Loop(b) =>
      if fuel > 0 { HeldExpr(c, brk, fuel - 1, e, N.EvalBlock(c, fuel, b, s).st); }
  }

  lemma {:induction false} HeldArgs(c: N.Ctx, brk: bool, fuel: nat, args: seq<Expr>, s: N.State)
    requires !FreeArgs(brk, args)
    ensures Held(brk, N.EvalArgs(c, fuel, args, s).o)
    decreases fuel, args, 0
  {
    if args != [] {
      HeldExpr(c, brk, fuel, args[0], s);
      HeldArgs(c, brk, fuel, args[1..], N.EvalExpr(c, fuel, args[0], s).st);
    }
  }

  lemma {:induction false} HeldBlock(c: N.Ctx, brk: bool, fuel: nat, b: Block, s: N.State)
    requires !FreeBlock(brk, b)
    ensures Held(brk, N.EvalBlock(c, fuel, b, s).o)
    decreases fuel, b, 0
  {
    HeldStmts(c, brk, fuel, b.stmts, Null, N.PushScope(s));
    if b.tail.Some? {
      HeldExpr(c, brk, fuel, b.tail.value, N.EvalStmts(c, fuel, b.stmts, Null, N.PushScope(s)).st);
    }
  }

  lemma {:induction false} HeldStmts(c: N.Ctx, brk: bool, fuel: nat, ss: seq<Stmt>, last: Value, s: N.State)
    requires !FreeStmts(brk, ss)
    ensures Held(brk, N.EvalStmts(c, fuel, ss, last, s).o)
    decreases fuel, ss, 0
  {
    if ss != [] {
      HeldStmt(c, brk, fuel, ss[0], s);
      var r := N.EvalStmt(c, fuel, ss[0], s);
      if r.o.Norm? { HeldStmts(c, brk, fuel, ss[1..], r.o.v, r.st); }
    }
  }

  lemma {:induction false} HeldStmt(c: N.Ctx, brk: bool, fuel: nat, st: Stmt, s: N.State)
    requires !FreeStmt(brk, st)
    ensures Held(brk, N.EvalStmt(c, fuel, st, s).o)
    decreases fuel, st, 1
  {
    match st
    case Let(_, x) => HeldExpr(c, brk, fuel, x, s);
    case Assign(_, x) => HeldExpr(c, brk, fuel, x, s);
    case Output(x) => HeldExpr(c, brk, fuel, x, s);
    case ExprStmt(x) => HeldExpr(c, brk, fuel, x, s);
    case While(x, b) => HeldWhile(c, brk, fuel, st, Null, s);
    case DoWhile(b, x) => HeldDoWhile(c, brk, fuel, st, Null, s);
    case Break =>
    case Return(x) => if x.Some? { HeldExpr(c, brk, fuel, x.value, s); }
    case Throw(x) => HeldExpr(c, brk, fuel, x, s);
    case FnDef(_) =>
  }

  lemma {:induction false} HeldWhile(c: N.Ctx, brk: bool, fuel: nat, st: Stmt, last: Value, s: N.State)
    requires st.While? && !FreeExpr(brk, st.cond)
    ensures Held(brk, N.EvalWhile(c, fuel, st, last, s).o)
    decreases fuel, st, 0
  {
    if fuel > 0 {
      HeldExpr(c, brk, fuel, st.cond, s);
      var b := N.EvalBlock(c, fuel, st.body, N.EvalExpr(c, fuel, st.cond, s).st);
      HeldWhile(c, brk, fuel - 1, st, if b.o.Norm? then b.o.v else last, b.st);
    }
  }

  lemma {:induction false} HeldDoWhile(c: N.Ctx, brk: bool, fuel: nat, st: Stmt, last: Value, s: N.State)
    requires st.DoWhile? && !FreeExpr(brk, st.cond)
    ensures Held(brk, N.EvalDoWhile(c, fuel, st, last, s).o)
    decreases fuel, st, 0
  {
    if fuel > 0 {
      var b := N.EvalBlock(c, fuel, st.body, s);
      HeldExpr(c, brk, fuel, st.cond, b.st);
      HeldDoWhile(c, brk, fuel - 1, st, if b.o.Norm? then b.o.v else last, N.EvalExpr(c, fuel, st.cond, b.st).st);
    }
  }

  // ---- clean programs ----

  // `tops` are the names the outermost list binds, `valued` the functions whose results may be used.
  datatype Names = Names(rules: Rules, tops: set<string>, valued: set<string>)

  predicate CleanExpr(n: Names, w: Place, used: bool, e: Expr)
    decreases e, 1
  {
    match e
    case Lit(_) => true
    case Var(x) => NameOk(n.rules, x) && (w.Inside? ==> x in n.rules.shared || x !in n.tops)
    case Bin(op, l, r) => CleanExpr(n, w, true, l) && CleanExpr(n, w, true, r) && !(n.rules.mode.Vm? && Logical(op))
    case Un(_, x) => CleanExpr(n, w, true, x)
    case Call(fn, args) => CleanArgs(n, w, args) && (used ==> fn in n.valued)
    case If(c, t, f) => CleanExpr(n, w, true, c) && CleanBlock(n, w, used, t) && (f.Some? ==> CleanBlock(n, w, used, f.value))
    case BlockExpr(b) => CleanBlock(n, w, used, b)
    case Coalesce(l, r) => CleanExpr(n, w, true, l) && CleanExpr(n, w, used, r)
    case Loop(b) => CleanBlock(n, w, false, b)
  }

  predicate CleanArgs(n: Names, w: Place, args: seq<Expr>)
    decreases args, 0
  {
    args != [] ==> CleanExpr(n, w, true, args[0]) && CleanArgs(n, w, args[1..])
  }

  predicate CleanBlock(n: Names, w: Place, used: bool, b: Block)
    decreases b, 1
  {
    CleanBody(n, Down(w), used, b)
  }

  // A list whose value is used has a tail, is empty, or does not end normally.
  predicate CleanBody(n: Names, w: Place, used: bool, b: Block)
    decreases b, 0
  {
    && CleanStmts(n, w, b.stmts)
    && (b.tail.Some? ==> CleanExpr(n, w, used, b.tail.value))
    && (b.tail.None? && used ==> b.stmts == [] || Leaves(b.stmts[|b.stmts|-1]))
  }

  predicate Leaves(st: Stmt) {
    st.Return? || st.Throw? || st.Break? || st.Continue?
  }

  predicate CleanStmts(n: Names, w: Place, ss: seq<Stmt>)
    decreases ss, 0
  {
    ss != [] ==> CleanStmt(n, w, ss[0]) && CleanStmts(n, w, ss[1..])
  }

  predicate CleanStmt(n: Names, w: Place, st: Stmt)
    decreases st, 1
  {
    match st
    case Let(x, e) => CleanExpr(n, w, true, e) && BindOk(n.rules, w, x) && (w.Outermost? ==> x in n.tops)
    case Assign(x, e) =>
      CleanExpr(n, w, true, e) && NameOk(n.rules, x) && x != N.NONE && if w.Inside? then x !in n.tops else x !in n.rules.shared
    case Output(e) => CleanExpr(n, w, true, e)
    case ExprStmt(e) => CleanExpr(n, w, false, e)
    case While(c, b) => CleanExpr(n, w, true, c) && !FreeExpr(true, c) && CleanBlock(n, w, false, b)
    case DoWhile(b, c) =>
      CleanBlock(n, w, false, b) && CleanExpr(n, w, true, c) && !FreeExpr(true, c) && (n.rules.mode.Ir? ==> !FreeBlock(false, b))
    case Return(e) => e.Some? ==> CleanExpr(n, w, true, e.value)
    case Throw(e) => CleanExpr(n, w, true, e)
    case Break => true
    case Continue => true
    case FnDef(_) => true
  }

  predicate CleanFunction(n: Names, f: FnDecl) {
    (forall x | x in f.params :: BindOk(n.rules, Inside, x)) && CleanBody(n, Inside, f.name in n.valued, f.body)
  }

  // The whole condition.
  predicate CleanProgram(n: Names, p: Program) {
    && CleanStmts(n, Outermost, N.Code(p))
    && (forall f | f in Functions(p) :: CleanFunction(n, Functions(p)[f]))
  }

  ghost predicate CleanCtx(n: Names, c: N.Ctx) {
    && c.captured == map[]
    && (forall f | f in c.funs :: c.funs[f].name == f && CleanFunction(n, c.funs[f]))
  }

  ghost predicate TopsOk(n: Names, w: Place, s: N.State) {
    && (if w.Outermost? then |s.scopes| == 1 else |s.scopes| >= 2)
    && s.scopes[0].vars.Keys <= n.tops
  }

  // ---- clean programs have tame runs only ----

  lemma VarTamed(n: Names, w: Place, x: string, s: N.State)
    requires NameOk(n.rules, x) && (w.Inside? ==> x in n.rules.shared || x !in n.tops) && TopsOk(n, w, s)
    ensures ReadOk(n.rules, w, x, s)
  {
  }

  lemma {:induction false} TamedExpr(n: Names, c: N.Ctx, w: Place, used: bool, fuel: nat, e: Expr, s: N.State)
    requires CleanCtx(n, c) && CleanExpr(n, w, used, e) && TopsOk(n, w, s)
    ensures TameExpr(c, n.rules, w, used, fuel, e, s) && TopsOk(n, w, N.EvalExpr(c, fuel, e, s).st)
    decreases fuel, e, 1
  {
    hide CleanCtx, TopsOk;
    match e
    case Lit(_) =>
    case Var(x) => VarTamed(n, w, x, s);
    case Bin(_, l, r) =>
      TamedExpr(n, c, w, true, fuel, l, s);
      TamedExpr(n, c, w, true, fuel, r, N.EvalExpr(c, fuel, l, s).st);
    case Un(_, x) => TamedExpr(n, c, w, true, fuel, x, s);
    case Call(fn, args) =>
      TamedArgs(n, c, w, fuel, args, s);
      var a := N.EvalArgs(c, fuel, args, s);
      if a.o.Norm? && fuel > 0 { TamedInvoke(n, c, w, used, fuel - 1, fn, a.vs, a.st); }
    case If(x, t, f) =>
      TamedExpr(n, c, w, true, fuel, x, s);
      var r := N.EvalExpr(c, fuel, x, s);
      TamedBlock(n, c, w, used, fuel, t, r.st);
      if f.Some? { TamedBlock(n, c, w, used, fuel, f.value, r.st); }
    case BlockExpr(b) => TamedBlock(n, c, w, used, fuel, b, s);
    case Coalesce(l, r) =>
      TamedExpr(n, c, w, true, fuel, l, s);
      TamedExpr(n, c, w, used, fuel, r, N.EvalExpr(c, fuel, l, s).st);
    case Loop(b) =>
      if fuel > 0 {
        TamedBlock(n, c, w, false, fuel, b, s);
        TamedExpr(n, c, w, used, fuel - 1, e, N.EvalBlock(c, fuel, b, s).st);
      }
  }

  lemma {:induction false} TamedArgs(n: Names, c: N.Ctx, w: Place, fuel: nat, args: seq<Expr>, s: N.State)
    requires CleanCtx(n, c) && CleanArgs(n, w, args) && TopsOk(n, w, s)
    ensures TameArgs(c, n.rules, w, fuel, args, s) && TopsOk(n, w, N.EvalArgs(c, fuel, args, s).st)
    decreases fuel, args, 0
  {
    hide CleanCtx, TopsOk;
    if args != [] {
      TamedExpr(n, c, w, true, fuel, args[0], s);
      TamedArgs(n, c, w, fuel, args[1..], N.EvalExpr(c, fuel, args[0], s).st);
    }
  }

  lemma {:induction false} TamedInvoke(n: Names, c: N.Ctx, w: Place, used: bool, fuel: nat, fn: string, vs: seq<Value>, s: N.State)
    requires CleanCtx(n, c) && TopsOk(n, w, s) && (used ==> fn in n.valued)
    ensures TameInvoke(c, n.rules, used, fuel, fn, vs, s) && TopsOk(n, w, N.Invoke(c, fuel, fn, vs, s).st)
    decreases fuel
  {
    hide N.EvalBody, TameBody, CleanBody;
    if fn in c.funs && |c.funs[fn].params| == |vs| {
      var f := c.funs[fn];
      assert CleanFunction(n, f);
      var entry := N.Entry(c, f, vs, s);
      assert TopsOk(n, Inside, entry);
      TamedBody(n, c, Inside, fn in n.valued, fuel, f.body, entry);
      LessUsed(c, n.rules, Inside, fn in n.valued, used, fuel, f.body, entry);
    }
  }

  // A run that is tame when its value is used is tame when it is not.
  lemma {:induction false} LessUsed(c: N.Ctx, k: Rules, w: Place, used: bool, less: bool, fuel: nat, b: Block, s: N.State)
    requires TameBody(c, k, w, used, fuel, b, s) && (less ==> used)
    ensures TameBody(c, k, w, less, fuel, b, s)
    decreases fuel, b, 0
  {
    if b.tail.Some? {
      var r := N.EvalStmts(c, fuel, b.stmts, Null, s);
      if r.o.Norm? { LessUsedExpr(c, k, w, used, less, fuel, b.tail.value, r.st); }
    }
  }

  lemma {:induction false} LessUsedExpr(c: N.Ctx, k: Rules, w: Place, used: bool, less: bool, fuel: nat, e: Expr, s: N.State)
    requires TameExpr(c, k, w, used, fuel, e, s) && (less ==> used)
    ensures TameExpr(c, k, w, less, fuel, e, s)
    decreases fuel, e, 1
  {
    match e
    case Call(fn, args) =>
      var a := N.EvalArgs(c, fuel, args, s);
      if a.o.Norm? && fuel > 0 && fn in c.funs && |c.funs[fn].params| == |a.vs| {
        LessUsed(c, k, Inside, used, less, fuel - 1, c.funs[fn].body, N.Entry(c, c.funs[fn], a.vs, a.st));
      }
    case If(x, t, f) =>
      var r := N.EvalExpr(c, fuel, x, s);
      if r.o == Norm(Bool(true)) {
        LessUsed(c, k, Down(w), used, less, fuel, t, N.PushScope(r.st));
      } else if r.o == Norm(Bool(false)) && f.Some? {
        LessUsed(c, k, Down(w), used, less, fuel, f.value, N.PushScope(r.st));
      }
    case BlockExpr(b) => LessUsed(c, k, Down(w), used, less, fuel, b, N.PushScope(s));
    case Coalesce(l, r) =>
      var x := N.EvalExpr(c, fuel, l, s);
      if x.o == Norm(Null) { LessUsedExpr(c, k, w, used, less, fuel, r, x.st); }
    case Loop(b) =>
      if fuel > 0 {
        var r := N.EvalBlock(c, fuel, b, s);
        if r.o.Norm? || r.o.Cont? { LessUsedExpr(c, k, w, used, less, fuel - 1, e, r.st); }
      }
    case _ =>
  }

  lemma {:induction false} TamedBlock(n: Names, c: N.Ctx, w: Place, used: bool, fuel: nat, b: Block, s: N.State)
    requires CleanCtx(n, c) && CleanBlock(n, w, used, b) && TopsOk(n, w, s)
    ensures TameBlock(c, n.rules, w, used, fuel, b, s) && TopsOk(n, w, N.EvalBlock(c, fuel, b, s).st)
    decreases fuel, b, 1
  {
    hide CleanCtx, CleanBody, TameBody;
    TamedBody(n, c, Down(w), used, fuel, b, N.PushScope(s));
  }

  lemma {:induction false} TamedBody(n: Names, c: N.Ctx, w: Place, used: bool, fuel: nat, b: Block, s: N.State)
    requires CleanCtx(n, c) && CleanBody(n, w, used, b) && TopsOk(n, w, s)
    ensures TameBody(c, n.rules, w, used, fuel, b, s) && TopsOk(n, w, N.EvalBody(c, fuel, b, s).st)
    decreases fuel, b, 0
  {
    hide CleanCtx, TopsOk;
    TamedStmts(n, c, w, fuel, b.stmts, Null, s);
    var r := N.EvalStmts(c, fuel, b.stmts, Null, s);
    if b.tail.Some? {
      TamedExpr(n, c, w, used, fuel, b.tail.value, r.st);
    } else if used && b.stmts != [] {
      LastLeaves(c, fuel, b.stmts, Null, s);
    }
  }

  lemma {:induction false} LastLeaves(c: N.Ctx, fuel: nat, ss: seq<Stmt>, last: Value, s: N.State)
    requires ss != [] && Leaves(ss[|ss|-1])
    ensures !N.EvalStmts(c, fuel, ss, last, s).o.Norm?
  {
    var r := N.EvalStmt(c, fuel, ss[0], s);
    if |ss| > 1 && r.o.Norm? { LastLeaves(c, fuel, ss[1..], r.o.v, r.st); }
  }

  lemma {:induction false} TamedStmts(n: Names, c: N.Ctx, w: Place, fuel: nat, ss: seq<Stmt>, last: Value, s: N.State)
    requires CleanCtx(n, c) && CleanStmts(n, w, ss) && TopsOk(n, w, s)
    ensures TameStmts(c, n.rules, w, fuel, ss, s) && TopsOk(n, w, N.EvalStmts(c, fuel, ss, last, s).st)
    decreases fuel, ss, 0
  {
    hide CleanCtx, TopsOk;
    if ss != [] {
      TamedStmt(n, c, w, fuel, ss[0], s);
      var r := N.EvalStmt(c, fuel, ss[0], s);
      if r.o.Norm? { TamedStmts(n, c, w, fuel, ss[1..], r.o.v, r.st); }
    }
  }

  lemma {:induction false} TamedStmt(n: Names, c: N.Ctx, w: Place, fuel: nat, st: Stmt, s: N.State)
    requires CleanCtx(n, c) && CleanStmt(n, w, st) && TopsOk(n, w, s)
    ensures TameStmt(c, n.rules, w, fuel, st, s) && TopsOk(n, w, N.EvalStmt(c, fuel, st, s).st)
    decreases fuel, st, 2
  {
    hide CleanCtx;
    match st
    case Let(_, e) => TamedExpr(n, c, w, true, fuel, e, s);
    case Assign(x, e) => TamedExpr(n, c, w, true, fuel, e, s);
    case Output(e) => TamedExpr(n, c, w, true, fuel, e, s);
    case ExprStmt(e) => TamedExpr(n, c, w, false, fuel, e, s);
    case While(x, _) => TamedWhile(n, c, w, fuel, st, Null, s); HeldWhile(c, true, fuel, st, Null, s);
    case DoWhile(_, x) => TamedDoWhile(n, c, w, fuel, st, Null, s); HeldDoWhile(c, true, fuel, st, Null, s);
    case Return(e) => if e.Some? { TamedExpr(n, c, w, true, fuel, e.value, s); }
    case Throw(e) => TamedExpr(n, c, w, true, fuel, e, s);
    case Break =>
    case Continue =>
    case FnDef(_) =>
  }

  lemma {:induction false} TamedWhile(n: Names, c: N.Ctx, w: Place, fuel: nat, st: Stmt, last: Value, s: N.State)
    requires st.While? && CleanCtx(n, c) && CleanStmt(n, w, st) && TopsOk(n, w, s)
    ensures TameWhile(c, n.rules, w, fuel, st, s) && TopsOk(n, w, N.EvalWhile(c, fuel, st, last, s).st)
    decreases fuel, st, 1
  {
    hide CleanCtx, TopsOk;
    if fuel > 0 {
      TamedExpr(n, c, w, true, fuel, st.cond, s);
      var x := N.EvalExpr(c, fuel, st.cond, s);
      TamedBlock(n, c, w, false, fuel, st.body, x.st);
      var b := N.EvalBlock(c, fuel, st.body, x.st);
      TamedWhile(n, c, w, fuel - 1, st, if b.o.Norm? then b.o.v else last, b.st);
    }
  }

  lemma {:induction false} TamedDoWhile(n: Names, c: N.Ctx, w: Place, fuel: nat, st: Stmt, last: Value, s: N.State)
    requires st.DoWhile? && CleanCtx(n, c) && CleanStmt(n, w, st) && TopsOk(n, w, s)
    ensures TameDoWhile(c, n.rules, w, fuel, st, s) && TopsOk(n, w, N.EvalDoWhile(c, fuel, st, last, s).st)
    decreases fuel, st, 1
  {
    hide CleanCtx, TopsOk;
    if fuel > 0 {
      TamedBlock(n, c, w, false, fuel, st.body, s);
      if n.rules.mode.Ir? { HeldBlock(c, false, fuel, st.body, s); }
      var b := N.EvalBlock(c, fuel, st.body, s);
      TamedExpr(n, c, w, true, fuel, st.cond, b.st);
      var x := N.EvalExpr(c, fuel, st.cond, b.st);
      TamedDoWhile(n, c, w, fuel - 1, st, if b.o.Norm? then b.o.v else last, x.st);
    }
  }
}
