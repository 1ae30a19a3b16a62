// When a variable called like the scratch local is harmless: code without &&, || and ?? never
// asks for the scratch local, so the name is a name like any other.  Swapping it with another
// name changes neither the instructions nor what the interpreter does.
module IrRename {
  import opened Wrappers
  import opened Syntax
  import opened Values
  import opened Semantics
  import opened IrMachine
  import opened IrCodegen
  import opened Pools

  // Swaps the scratch name and `z`.
  function Swap(z: string, x: string): (r: string)
    ensures r == TEMP <==> x == z
    ensures r == z <==> x == TEMP
  {
    if x == TEMP then z else if x == z then TEMP else x
  }

  lemma SwapTwice(z: string, x: string)
    ensures Swap(z, Swap(z, x)) == x
  {
  }

  lemma SwapSame(z: string, x: string, y: string)
    ensures Swap(z, x) == Swap(z, y) <==> x == y
  {
    SwapTwice(z, x);
    SwapTwice(z, y);
  }

  function SwapAll(z: string, xs: seq<string>): (r: seq<string>)
    ensures |r| == |xs| && forall i | 0 <= i < |xs| :: r[i] == Swap(z, xs[i])
  {
    seq(|xs|, i requires 0 <= i < |xs| => Swap(z, xs[i]))
  }

  function SwapExpr(z: string, e: Expr): Expr
    decreases e, 1
  {
    match e
    case Lit(_) => e
    case Var(x) => Var(Swap(z, x))
    case Bin(op, l, r) => Bin(op, SwapExpr(z, l), SwapExpr(z, r))
    case Un(op, x) => Un(op, SwapExpr(z, x))
    case Call(fn, args) => Call(fn, SwapArgs(z, args))
    case If(c, t, f) => If(SwapExpr(z, c), SwapBlock(z, t), if f.Some? then Some(SwapBlock(z, f.value)) else None)
    case BlockExpr(b) => BlockExpr(SwapBlock(z, b))
    case Coalesce(l, r) => Coalesce(SwapExpr(z, l), SwapExpr(z, r))
    case Loop(b) => Loop(SwapBlock(z, b))
  }

  function SwapArgs(z: string, args: seq<Expr>): (r: seq<Expr>)
    ensures |r| == |args|
    decreases args, 0
  {
    if args == [] then [] else [SwapExpr(z, args[0])] + SwapArgs(z, args[1..])
  }

  function SwapBlock(z: string, b: Block): Block
    decreases b, 0
  {
    Block(SwapStmts(z, b.stmts), if b.tail.Some? then Some(SwapExpr(z, b.tail.value)) else None)
  }

  function SwapStmts(z: string, ss: seq<Stmt>): (r: seq<Stmt>)
    ensures |r| == |ss|
    decreases ss, 0
  {
    if ss == [] then [] else [SwapStmt(z, ss[0])] + SwapStmts(z, ss[1..])
  }

  function SwapDecl(z: string, d: FnDecl): FnDecl
    decreases d, 0
  {
    FnDecl(d.name, SwapAll(z, d.params), SwapBlock(z, d.body))
  }

  function SwapStmt(z: string, st: Stmt): Stmt
    decreases st, 1
  {
    match st
    case Let(x, e) => Let(Swap(z, x), SwapExpr(z, e))
    case Assign(x, e) => Assign(Swap(z, x), SwapExpr(z, e))
    case Output(e) => Output(SwapExpr(z, e))
    case ExprStmt(e) => ExprStmt(SwapExpr(z, e))
    case While(c, b) => While(SwapExpr(z, c), SwapBlock(z, b))
    case DoWhile(b, c) => DoWhile(SwapBlock(z, b), SwapExpr(z, c))
    case Return(e) => Return(if e.Some? then Some(SwapExpr(z, e.value)) else None)
    case Throw(e) => Throw(SwapExpr(z, e))
    case FnDef(d) => FnDef(SwapDecl(z, d))
    case Break => st
    case Continue => st
  }

  // ---- code that never asks for the scratch local; `fns` are the functions it may call by name ----

  predicate NoScratchExpr(fns: set<string>, e: Expr)
    decreases e, 1
  {
    match e
    case Lit(_) => true
    case Var(_) => true
    case Bin(op, l, r) => !op.And? && !op.Or? && NoScratchExpr(fns, l) && NoScratchExpr(fns, r)
    case Un(_, x) => NoScratchExpr(fns, x)
    case Call(fn, args) => fn in fns && NoScratchArgs(fns, args)
    case If(c, t, f) => NoScratchExpr(fns, c) && NoScratchBlock(fns, t) && (f.Some? ==> NoScratchBlock(fns, f.value))
    case BlockExpr(b) => NoScratchBlock(fns, b)
    case Coalesce(_, _) => false
    case Loop(b) => NoScratchBlock(fns, b)
  }

  predicate NoScratchArgs(fns: set<string>, args: seq<Expr>)
    decreases args, 0
  {
    args != [] ==> NoScratchExpr(fns, args[0]) && NoScratchArgs(fns, args[1..])
  }

  predicate NoScratchBlock(fns: set<string>, b: Block)
    decreases b, 0
  {
    NoScratchStmts(fns, b.stmts) && (b.tail.Some? ==> NoScratchExpr(fns, b.tail.value))
  }

  predicate NoScratchStmts(fns: set<string>, ss: seq<Stmt>)
    decreases ss, 0
  {
    ss != [] ==> NoScratchStmt(fns, ss[0]) && NoScratchStmts(fns, ss[1..])
  }

  predicate NoScratchStmt(fns: set<string>, st: Stmt)
    decreases st, 1
  {
    match st
    case Let(_, e) => NoScratchExpr(fns, e)
    case Assign(_, e) => NoScratchExpr(fns, e)
    case Output(e) => NoScratchExpr(fns, e)
    case ExprStmt(e) => NoScratchExpr(fns, e)
    case While(c, b) => NoScratchExpr(fns, c) && NoScratchBlock(fns, b)
    case DoWhile(b, c) => NoScratchBlock(fns, b) && NoScratchExpr(fns, c)
    case Return(e) => e.Some? ==> NoScratchExpr(fns, e.value)
    case Throw(e) => NoScratchExpr(fns, e)
    case FnDef(_) => true
    case Break => true
    case Continue => true
  }

  // ---- the compiler's tables ----

  function SwapMap<T>(z: string, m: map<string, T>): (r: map<string, T>)
    ensures forall x :: Swap(z, x) in r <==> x in m
    ensures forall x | x in m :: r[Swap(z, x)] == m[x]
  {
    forall x ensures Swap(z, Swap(z, x)) == x { SwapTwice(z, x); }
    map x | x in (set y | y in m :: Swap(z, y)) :: m[Swap(z, x)]
  }

  lemma SameMap<T>(z: string, a: map<string, T>, b: map<string, T>)
    requires forall x :: Swap(z, x) in b <==> x in a
    requires forall x | x in a :: b[Swap(z, x)] == a[x]
    ensures SwapMap(z, a) == b
  {
    forall x ensures x in b <==> x in SwapMap(z, a) {
      SwapTwice(z, x);
      assert Swap(z, Swap(z, x)) in b <==> Swap(z, x) in a;
    }
    forall x | x in b ensures SwapMap(z, a)[x] == b[x] {
      SwapTwice(z, x);
      assert Swap(z, x) in a;
    }
  }

  lemma SwapUpdate<T>(z: string, m: map<string, T>, x: string, v: T)
    ensures SwapMap(z, m[x := v]) == SwapMap(z, m)[Swap(z, x) := v]
  {
    forall y ensures Swap(z, y) == Swap(z, x) <==> x == y { SwapSame(z, x, y); }
    SameMap(z, m[x := v], SwapMap(z, m)[Swap(z, x) := v]);
  }

  lemma SwapNothing<T>(z: string)
    ensures SwapMap<T>(z, map[]) == map[]
  {
    SameMap<T>(z, map[], map[]);
  }

  function SwapMaps<T>(z: string, ms: seq<map<string, T>>): (r: seq<map<string, T>>)
    ensures |r| == |ms| && forall i | 0 <= i < |ms| :: r[i] == SwapMap(z, ms[i])
  {
    seq(|ms|, i requires 0 <= i < |ms| => SwapMap(z, ms[i]))
  }

  lemma {:induction false} SwapInnermost<T>(z: string, ms: seq<map<string, T>>, x: string)
    ensures Innermost(SwapMaps(z, ms), Swap(z, x)) == Innermost(ms, x)
  {
    hide SwapMap;
    if ms != [] {
      var n := |ms| - 1;
      assert SwapMaps(z, ms)[..n] == SwapMaps(z, ms[..n]);
      SwapInnermost(z, ms[..n], x);
      assert Swap(z, x) in SwapMap(z, ms[n]) <==> x in ms[n];
    }
  }

  lemma {:induction false} IndexSwapped(z: string, xs: seq<string>, x: string)
    ensures IndexOf(SwapAll(z, xs), Swap(z, x)) == IndexOf(xs, x)
  {
    if xs != [] {
      SwapSame(z, xs[0], x);
      assert SwapAll(z, xs)[1..] == SwapAll(z, xs[1..]);
      IndexSwapped(z, xs[1..], x);
    }
  }

  lemma SwapIndex(z: string, xs: seq<string>, x: string)
    ensures IndexOf(SwapAll(z, xs), Swap(z, x)) == IndexOf(xs, x)
    ensures InternIndex(SwapAll(z, xs), Swap(z, x)) == InternIndex(xs, x)
    ensures Interned(SwapAll(z, xs), Swap(z, x)) == SwapAll(z, Interned(xs, x))
  {
    IndexSwapped(z, xs, x);
    assert SwapAll(z, xs + [x]) == SwapAll(z, xs) + [Swap(z, x)];
  }

  function SwapEnv(z: string, env: Env): Env {
    Env(SwapMaps<nat>(z, env.scopes), SwapAll(z, env.locals), env.strings, SwapAll(z, env.globals))
  }

  function SwapOut(z: string, r: Option<Emitted>): Option<Emitted> {
    if r.None? then None else Some(Emitted(r.value.code, SwapEnv(z, r.value.env)))
  }

  // Neither of the two names is a function.
  predicate Apart(z: string, fns: map<string, nat>) {
    TEMP !in fns && z !in fns
  }

  // ---- the same instructions ----

  lemma SlotSwapped(z: string, scopes: seq<Slots>, i: nat, x: string)
    requires i < |scopes| && x in scopes[i]
    ensures Swap(z, x) in SwapMaps<nat>(z, scopes)[i] && SwapMaps<nat>(z, scopes)[i][Swap(z, x)] == scopes[i][x]
  {
  }

  lemma ReadSwapped(z: string, u: Unit, x: string, env: Env)
    requires Apart(z, u.fns)
    ensures GenRead(u, Swap(z, x), SwapEnv(z, env)) == Emitted(GenRead(u, x, env).code, SwapEnv(z, GenRead(u, x, env).env))
  {
    hide SwapMaps, Grows, Good, Visible;
    SwapInnermost<nat>(z, env.scopes, x);
    SwapIndex(z, env.globals, x);
    var i := Innermost(env.scopes, x);
    if i.Some? { SlotSwapped(z, env.scopes, i.value, x); }
  }

  lemma WriteSwapped(z: string, u: Unit, x: string, env: Env)
    ensures GenWrite(u, Swap(z, x), SwapEnv(z, env)) == Emitted(GenWrite(u, x, env).code, SwapEnv(z, GenWrite(u, x, env).env))
  {
    hide SwapMaps, Grows, Good, Visible;
    SwapInnermost<nat>(z, env.scopes, x);
    SwapIndex(z, env.globals, x);
    var i := Innermost(env.scopes, x);
    if i.Some? { SlotSwapped(z, env.scopes, i.value, x); }
  }

  lemma MapsUpdated(z: string, ms: seq<Slots>, i: nat, m: Slots)
    requires i < |ms|
    ensures SwapMaps<nat>(z, ms[i := m]) == SwapMaps<nat>(z, ms)[i := SwapMap<nat>(z, m)]
  {
    hide SwapMap;
  }

  lemma DefineMeans(x: string, env: Env)
    requires env.scopes != []
    ensures var top := |env.scopes| - 1;
      var inner: Slots := env.scopes[top][x := |env.locals|];
      Define(env, x) == Env(env.scopes[top := inner], env.locals + [x], env.strings, env.globals)
  {
    hide Good, Grows;
  }

  lemma DefineSwapped(z: string, x: string, env: Env)
    requires env.scopes != []
    ensures Define(SwapEnv(z, env), Swap(z, x)) == SwapEnv(z, Define(env, x))
  {
    hide Good, Grows, Define, SwapMap, SwapMaps, Swap;
    var top, slot := |env.scopes| - 1, |env.locals|;
    var inner: Slots := env.scopes[top][x := slot];
    DefineMeans(x, env);
    DefineMeans(Swap(z, x), SwapEnv(z, env));
    SwapUpdate<nat>(z, env.scopes[top], x, slot);
    MapsUpdated(z, env.scopes, top, inner);
    assert SwapAll(z, env.locals) + [Swap(z, x)] == SwapAll(z, env.locals + [x]);
  }

  lemma BindSwapped(z: string, u: Unit, x: string, env: Env)
    requires env.scopes != []
    ensures GenBind(u, Swap(z, x), SwapEnv(z, env)) == Emitted(GenBind(u, x, env).code, SwapEnv(z, GenBind(u, x, env).env))
  {
    hide Good, Define, Swap;
    DefineSwapped(z, x, env);
    SwapIndex(z, env.globals, x);
    if u.top {
      var d, b := Define(env, x), Interned(env.globals, x);
      assert SwapEnv(z, d.(globals := b)) == SwapEnv(z, d).(globals := SwapAll(z, b));
      assert GenBind(u, Swap(z, x), SwapEnv(z, env)).code == GenBind(u, x, env).code;
    }
  }

  lemma EnterSwapped(z: string, env: Env)
    ensures Enter(SwapEnv(z, env)) == SwapEnv(z, Enter(env))
  {
    SwapNothing<nat>(z);
    assert SwapMaps<nat>(z, env.scopes + [map[]]) == SwapMaps<nat>(z, env.scopes) + [map[]];
  }

  lemma ExitSwapped(z: string, env: Env)
    requires env.scopes != []
    ensures Exit(SwapEnv(z, env)) == SwapEnv(z, Exit(env))
  {
    assert SwapMaps<nat>(z, env.scopes[..|env.scopes| - 1]) == SwapMaps<nat>(z, env.scopes)[..|env.scopes| - 1];
  }

  lemma {:induction false} ExprSwapped(z: string, u: Unit, e: Expr, k: Option<nat>, env: Env)
    requires env.scopes != [] && Apart(z, u.fns) && NoScratchExpr(u.fns.Keys, e)
    ensures GenExpr(u, SwapExpr(z, e), k, SwapEnv(z, env)) == SwapOut(z, GenExpr(u, e, k, env))
    decreases e, 1
  {
    hide Visible, Good, SwapEnv;
    match e
    case Lit(v) => LitSwapped(z, v, env);
    case Var(x) => ReadSwapped(z, u, x, env);
    case Bin(op, l, r) =>
      ExprSwapped(z, u, l, k, env);
      var a := GenExpr(u, l, k, env);
      if a.Some? {
        ExprSwapped(z, u, r, k, a.value.env);
        var b := GenExpr(u, r, k, a.value.env);
        if b.Some? { OpSwapped(z, op, b.value.env); }
      }
    case Un(_, x) => ExprSwapped(z, u, x, k, env);
    case Call(fn, args) =>
      ArgsSwapped(z, u, args, k, env);
    case If(_, _, _) => IfSwapped(z, u, e, k, env);
    case BlockExpr(b) => BlockSwapped(z, u, b, k, env);
    case Loop(b) => BlockSwapped(z, u, b, Some(0), env);
  }

  lemma LitSwapped(z: string, v: Value, env: Env)
    ensures GenLit(v, SwapEnv(z, env)) == Emitted(GenLit(v, env).code, SwapEnv(z, GenLit(v, env).env))
  {
  }

  lemma OpSwapped(z: string, op: BinOp, env: Env)
    ensures GenOp(op, SwapEnv(z, env)) == Emitted(GenOp(op, env).code, SwapEnv(z, GenOp(op, env).env))
  {
  }

  lemma {:induction false} IfSwapped(z: string, u: Unit, e: Expr, k: Option<nat>, env: Env)
    requires e.If? && env.scopes != [] && Apart(z, u.fns) && NoScratchExpr(u.fns.Keys, e)
    ensures GenExpr(u, SwapExpr(z, e), k, SwapEnv(z, env)) == SwapOut(z, GenExpr(u, e, k, env))
    decreases e, 0
  {
    hide Visible, Good, SwapEnv;
    ExprSwapped(z, u, e.cond, k, env);
    var a := GenExpr(u, e.cond, k, env);
    if a.Some? {
      BlockSwapped(z, u, e.thn, Deeper(k, 1), a.value.env);
      var b := GenBlock(u, e.thn, Deeper(k, 1), a.value.env);
      if b.Some? && e.els.Some? { BlockSwapped(z, u, e.els.value, Deeper(k, 1), b.value.env); }
    }
  }

  lemma {:induction false} ArgsSwapped(z: string, u: Unit, args: seq<Expr>, k: Option<nat>, env: Env)
    requires env.scopes != [] && Apart(z, u.fns) && NoScratchArgs(u.fns.Keys, args)
    ensures GenArgs(u, SwapArgs(z, args), k, SwapEnv(z, env)) == SwapOut(z, GenArgs(u, args, k, env))
    decreases args, 0
  {
    hide Visible, Good, SwapEnv;
    if args != [] {
      ExprSwapped(z, u, args[0], k, env);
      assert SwapArgs(z, args)[1..] == SwapArgs(z, args[1..]);
      var a := GenExpr(u, args[0], k, env);
      if a.Some? { ArgsSwapped(z, u, args[1..], k, a.value.env); }
    }
  }

  lemma {:induction false} InnerSwapped(z: string, u: Unit, b: Block, k: Option<nat>, env: Env)
    requires env.scopes != [] && Apart(z, u.fns) && NoScratchBlock(u.fns.Keys, b)
    ensures GenInner(u, SwapBlock(z, b), k, SwapEnv(z, env)) == SwapOut(z, GenInner(u, b, k, env))
    decreases b, 0
  {
    hide Visible, Good, SwapEnv;
    StmtsSwapped(z, u, b.stmts, k, env);
    var a := GenStmts(u, b.stmts, k, env);
    if a.Some? && b.tail.Some? { ExprSwapped(z, u, b.tail.value, k, a.value.env); }
  }

  lemma {:induction false} BlockSwapped(z: string, u: Unit, b: Block, k: Option<nat>, env: Env)
    requires Apart(z, u.fns) && NoScratchBlock(u.fns.Keys, b)
    ensures GenBlock(u, SwapBlock(z, b), k, SwapEnv(z, env)) == SwapOut(z, GenBlock(u, b, k, env))
    ensures GenBody(u, SwapBlock(z, b), k, SwapEnv(z, env)) == SwapOut(z, GenBody(u, b, k, env))
    decreases b, 1
  {
    hide Visible, Good, GenInner, SwapMaps, SwapAll;
    EnterSwapped(z, env);
    InnerSwapped(z, u, b, k, Enter(env));
    var i := GenInner(u, b, k, Enter(env));
    if i.Some? && i.value.env.scopes != [] { ExitSwapped(z, i.value.env); }
  }

  lemma {:induction false} StmtsSwapped(z: string, u: Unit, ss: seq<Stmt>, k: Option<nat>, env: Env)
    requires env.scopes != [] && Apart(z, u.fns) && NoScratchStmts(u.fns.Keys, ss)
    ensures GenStmts(u, SwapStmts(z, ss), k, SwapEnv(z, env)) == SwapOut(z, GenStmts(u, ss, k, env))
    decreases ss, 0
  {
    hide Visible, Good, SwapEnv;
    if ss != [] {
      StmtSwapped(z, u, ss[0], k, env);
      assert SwapStmts(z, ss)[1..] == SwapStmts(z, ss[1..]);
      var a := GenStmt(u, ss[0], k, env);
      if a.Some? { StmtsSwapped(z, u, ss[1..], k, a.value.env); }
    }
  }

  lemma {:induction false} StmtSwapped(z: string, u: Unit, st: Stmt, k: Option<nat>, env: Env)
    requires env.scopes != [] && Apart(z, u.fns) && NoScratchStmt(u.fns.Keys, st)
    ensures GenStmt(u, SwapStmt(z, st), k, SwapEnv(z, env)) == SwapOut(z, GenStmt(u, st, k, env))
    decreases st, 1
  {
    hide Visible, Good, SwapEnv;
    match st
    case Let(_, _) => StoreSwapped(z, u, st, k, env);
    case Assign(_, _) => StoreSwapped(z, u, st, k, env);
    case Output(e) => ExprSwapped(z, u, e, k, env);
    case ExprStmt(e) => ExprSwapped(z, u, e, k, env);
    case While(_, _) => WhileSwapped(z, u, st, k, env);
    case DoWhile(_, _) => WhileSwapped(z, u, st, k, env);
    case Return(e) => if e.Some? { ExprSwapped(z, u, e.value, k, env); }
    case Throw(e) => ExprSwapped(z, u, e, k, env);
    case FnDef(_) =>
    case Break =>
    case Continue =>
  }

  lemma {:induction false} StoreSwapped(z: string, u: Unit, st: Stmt, k: Option<nat>, env: Env)
    requires (st.Let? || st.Assign?) && env.scopes != [] && Apart(z, u.fns) && NoScratchStmt(u.fns.Keys, st)
    ensures GenStmt(u, SwapStmt(z, st), k, SwapEnv(z, env)) == SwapOut(z, GenStmt(u, st, k, env))
    decreases st, 0
  {
    hide Visible, Good, SwapEnv, GenBind, GenWrite, Swap;
    ExprSwapped(z, u, st.value, k, env);
    var a := GenExpr(u, st.value, k, env);
    if a.Some? {
      if st.Let? { BindSwapped(z, u, st.name, a.value.env); } else { WriteSwapped(z, u, st.name, a.value.env); }
    }
  }

  lemma {:induction false} WhileSwapped(z: string, u: Unit, st: Stmt, k: Option<nat>, env: Env)
    requires (st.While? || st.DoWhile?) && env.scopes != [] && Apart(z, u.fns) && NoScratchStmt(u.fns.Keys, st)
    ensures GenStmt(u, SwapStmt(z, st), k, SwapEnv(z, env)) == SwapOut(z, GenStmt(u, st, k, env))
    decreases st, 0
  {
    hide Visible, Good, SwapEnv, Swap, GenBody;
    if st.While? {
      ExprSwapped(z, u, st.cond, Some(0), env);
      var a := GenExpr(u, st.cond, Some(0), env);
      if a.Some? { BlockSwapped(z, u, st.body, Some(0), a.value.env); }
    } else {
      BlockSwapped(z, u, st.body, Some(0), env);
      var a := GenBody(u, st.body, Some(0), env);
      if a.Some? { ExprSwapped(z, u, st.cond, Some(0), a.value.env); }
    }
  }
}
