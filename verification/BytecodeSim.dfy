// Meaning preservation of the bytecode compiler: what the semantics does with a
// supported fragment, the machine does with its bytes.
module BytecodeSim {
  import opened Wrappers
  import opened Syntax
  import opened Values
  import opened Semantics
  import opened Pools
  import opened BytecodeMachine
  import opened BytecodeGen
  import opened BytecodeRelation
  import opened BytecodeSteps

  // ---- supported code below the top level binds no names and defines no functions ----

  lemma {:induction false} OperandLocals(e: Expr, base: nat, t: Tab)
    requires OkOperand(e)
    ensures GenExpr(e, base, t).tab.locals == t.locals && GenExpr(e, base, t).tab.functions == t.functions
    decreases e, 1
  {
    hide Encode, GenArgs;
    match e
    case Lit(_) =>
    case Var(_) =>
    case Bin(_, _, _) => BinLocals(e, base, t);
    case Un(_, x) => OperandLocals(x, base, t);
    case Call(_, args) => ArgsLocals(args, base, t);
  }

  lemma {:induction false} BinLocals(e: Expr, base: nat, t: Tab)
    requires e.Bin? && OkOperand(e)
    ensures GenExpr(e, base, t).tab.locals == t.locals && GenExpr(e, base, t).tab.functions == t.functions
    decreases e, 0
  {
    hide Encode;
    var l := GenExpr(e.left, base, t);
    OperandLocals(e.left, base, t);
    OperandLocals(e.right, base + |l.code|, l.tab);
  }

  lemma {:induction false} ArgsLocals(args: seq<Expr>, base: nat, t: Tab)
    requires OkArgs(args)
    ensures GenArgs(args, base, t).tab.locals == t.locals && GenArgs(args, base, t).tab.functions == t.functions
    decreases args, 0
  {
    if args != [] {
      OperandLocals(args[0], base, t);
      var x := GenExpr(args[0], base, t);
      ArgsLocals(args[1..], base + |x.code|, x.tab);
    }
  }

  lemma {:induction false} ExprLocals(e: Expr, v: bool, base: nat, t: Tab)
    requires OkExpr(e, v)
    ensures GenExpr(e, base, t).tab.locals == t.locals && GenExpr(e, base, t).tab.functions == t.functions
    decreases e, 3
  {
    hide GenExpr, GenInner, Encode, OkBranch, OkArgs;
    if OkOperand(e) {
      OperandLocals(e, base, t);
    } else if e.If? {
      IfLocals(e, v, base, t);
    } else if e.Bin? {
      BinaryGen(e, base, t);
      ExprLocals(e.left, true, base, t);
      var l := GenExpr(e.left, base, t);
      OperandLocals(e.right, base + |l.code|, l.tab);
    } else if e.Un? {
      UnaryGen(e, base, t);
      ExprLocals(e.operand, true, base, t);
    } else {
      CallGen(e, base, t);
      ArgsGen(e.args, base, t);
      ExprLocals(e.args[0], true, base, t);
      var x := GenExpr(e.args[0], base, t);
      ArgsLocals(e.args[1..], base + |x.code|, x.tab);
    }
  }

  lemma {:induction false} IfLocals(e: Expr, v: bool, base: nat, t: Tab)
    requires e.If? && OkExpr(e, v)
    ensures GenExpr(e, base, t).tab.locals == t.locals && GenExpr(e, base, t).tab.functions == t.functions
    decreases e, 2
  {
    hide GenExpr, GenInner, Encode;
    IfGen(e, base, t);
    var c := GenExpr(e.cond, base, t);
    ExprLocals(e.cond, true, base, t);
    var mid := base + |c.code| + 3;
    InnerLocals(e.thn, v, mid, c.tab);
    var x := GenInner(e.thn, mid, c.tab);
    if e.els.Some? {
      InnerLocals(e.els.value, v, mid + |x.code| + 3, x.tab);
    }
  }

  lemma {:induction false} InnerLocals(b: Block, v: bool, base: nat, t: Tab)
    requires OkBranch(b, v)
    ensures GenInner(b, base, t).tab.locals == t.locals && GenInner(b, base, t).tab.functions == t.functions
    decreases b, 0
  {
    hide GenExpr, GenStmts;
    StmtsLocals(b.stmts, base, t);
    var ss := GenStmts(b.stmts, base, t);
    if b.tail.Some? {
      ExprLocals(b.tail.value, v, base + |ss.code|, ss.tab);
    }
  }

  lemma {:induction false} StmtsLocals(ss: seq<Stmt>, base: nat, t: Tab)
    requires OkStmts(ss, Nested)
    ensures GenStmts(ss, base, t).tab.locals == t.locals && GenStmts(ss, base, t).tab.functions == t.functions
    decreases ss, 0
  {
    hide GenStmt;
    if ss != [] {
      StmtLocals(ss[0], base, t);
      var x := GenStmt(ss[0], base, t);
      StmtsLocals(ss[1..], base + |x.code|, x.tab);
    }
  }

  lemma {:induction false} StmtLocals(st: Stmt, base: nat, t: Tab)
    requires OkStmt(st, Nested)
    ensures GenStmt(st, base, t).tab.locals == t.locals && GenStmt(st, base, t).tab.functions == t.functions
    decreases st, 1
  {
    hide GenExpr, GenStmts, Encode;
    match st
    case Assign(_, x) => ExprLocals(x, true, base, t);
    case Output(x) => ExprLocals(x, true, base, t);
    case ExprStmt(x) => ExprLocals(x, false, base, t);
    case While(c, b) =>
      ExprLocals(c, true, base, t);
      var x := GenExpr(c, base, t);
      StmtsLocals(b.stmts, base + |x.code| + 3, x.tab);
    case DoWhile(b, c) =>
      StmtsLocals(b.stmts, base, t);
      var x := GenStmts(b.stmts, base, t);
      ExprLocals(c, true, base + |x.code|, x.tab);
    case Return(x) => if x.Some? { ExprLocals(x.value, true, base, t); }
  }

  // ---- operands ----

  // The machine, started at `a`, ends at `ip` with `stack`, or returns, as `r` says.
  ghost predicate Ends(w: World, ch: Chunk, k: seq<Frame>, a: Config, r: Res, ip: nat, stack: seq<Value>) {
    && (r.o.Norm? || r.o.Ret?)
    && (r.o.Norm? ==> Reach(w.m, a, At(ch, k, ip, stack, r.st)))
    && (r.o.Ret? ==> Reach(w.m, a, Resume(r.o.v, k, r.st.globals, r.st.out)))
  }

  // Ready to run the code `out` at `ip`: the code is there, and every local is in its slot.
  ghost predicate Pre(w: World, ch: Chunk, k: seq<Frame>, a: Config, out: Out, d: nat, ip: nat, locals: seq<string>, st: seq<Value>, s: State) {
    && Linked(w) && Segment(ch.code, ip, out.code) && Fits(w, ch, out.tab) && Rel(s, d, locals, st)
    && Reach(w.m, a, At(ch, k, ip, st, s))
  }

  lemma WorldFacts(w: World)
    requires Linked(w)
    ensures w.c.mode.Vm? && w.c.prims == w.m.prims && w.c.prims.Valid() && |w.m.names| <= 65536
  {
  }

  lemma BinEval(c: Ctx, fuel: nat, e: Expr, s: State)
    requires e.Bin? && Supported(e.op) && c.mode.Vm?
    ensures var x := EvalExpr(c, fuel, e.left, s);
      var y := EvalExpr(c, fuel, e.right, x.st);
      var r := EvalExpr(c, fuel, e, s);
      if !x.o.Norm? then r == x
      else if !y.o.Norm? then r == y
      else r == Res(Norm(Apply(c.prims, e.op, x.o.v, y.o.v)), y.st)
  {
  }

  lemma UnEval(c: Ctx, fuel: nat, e: Expr, s: State)
    requires e.Un? && c.mode.Vm?
    ensures var x := EvalExpr(c, fuel, e.operand, s);
      var r := EvalExpr(c, fuel, e, s);
      if !x.o.Norm? then r == x
      else r == Res(Norm(if e.uop.Not? then Bool(!c.prims.truthy(x.o.v)) else OrNull(c.prims.neg(x.o.v))), x.st)
  {
  }

  lemma CallEval(c: Ctx, fuel: nat, e: Expr, s: State)
    requires e.Call? && c.mode.Vm?
    ensures var a := EvalArgs(c, fuel, e.args, s);
      var r := EvalExpr(c, fuel, e, s);
      if !a.o.Norm? then r == Res(a.o, a.st)
      else
        !r.o.Fail? ==> fuel > 0 && r == Called(c, fuel, e.fn, a.vs, a.st)
  {
  }

  lemma ArgsEval(c: Ctx, fuel: nat, args: seq<Expr>, s: State)
    requires args != []
    ensures var x := EvalExpr(c, fuel, args[0], s);
      EvalArgs(c, fuel, args, s) ==
        if !x.o.Norm? then ArgsRes(x.o, [], x.st)
        else var rest := EvalArgs(c, fuel, args[1..], x.st); rest.(vs := [x.o.v] + rest.vs)
  {
  }

  lemma LoadRun(w: World, ch: Chunk, k: seq<Frame>, a: Config, d: nat, ip: nat, t: Tab, st: seq<Value>, s: State, name: string)
    requires Pre(w, ch, k, a, GenLoad(name, t), d, ip, t.locals, st, s)
    ensures var r := ReadVar(w.c, name, s);
      r.o.Norm? && Reach(w.m, a, At(ch, k, ip + |GenLoad(name, t).code|, st + [r.o.v], s))
  {
    hide Linked, Fetch, Reach, Encode, Segment;
    WorldFacts(w);
    assert LocalAt(s.scopes, t.locals, st, name);
    if name in t.locals {
      GoPush(w.m, a, ch, k, ip, st, s, LoadLocal(SlotOf(t.locals, name).value));
    } else {
      InternFinal(t.names, w.m.names, name);
      GoPush(w.m, a, ch, k, ip, st, s, LoadGlobal(InternIndex(t.names, name)));
    }
  }

  lemma ConstRun(w: World, ch: Chunk, k: seq<Frame>, a: Config, d: nat, ip: nat, t: Tab, st: seq<Value>, s: State, v: Value)
    requires Pre(w, ch, k, a, GenConst(v, t), d, ip, t.locals, st, s)
    ensures Reach(w.m, a, At(ch, k, ip + |GenConst(v, t).code|, st + [v], s))
  {
    hide Linked, Fetch, Reach, Encode, Segment, Rel;
    match v
    case Null => GoPush(w.m, a, ch, k, ip, st, s, PushNull);
    case Bool(b) => GoPush(w.m, a, ch, k, ip, st, s, if b then PushTrue else PushFalse);
    case _ => GoPush(w.m, a, ch, k, ip, st, s, PushConst(|t.constants|));
  }

  // An operand leaves the stack as it was, plus its value.
  ghost predicate Pushes(w: World, ch: Chunk, k: seq<Frame>, a: Config, r: Res, ip: nat, st: seq<Value>, s: State) {
    r.o.Norm? && r.st.scopes == s.scopes && Reach(w.m, a, At(ch, k, ip, st + [r.o.v], r.st))
  }

  lemma {:induction false} SimOperand(w: World, fuel: nat, e: Expr, ch: Chunk, k: seq<Frame>, a: Config, d: nat, ip: nat, t: Tab,
                                      st: seq<Value>, s: State)
    requires OkOperand(e) && Pre(w, ch, k, a, GenExpr(e, ip, t), d, ip, t.locals, st, s) && !EvalExpr(w.c, fuel, e, s).o.Fail?
    ensures Pushes(w, ch, k, a, EvalExpr(w.c, fuel, e, s), ip + |GenExpr(e, ip, t).code|, st, s)
    decreases fuel, e, 1
  {
    hide Linked, Rel, Segment, Reach, Fits, Encode;
    match e
    case Lit(v) => ConstRun(w, ch, k, a, d, ip, t, st, s, v);
    case Var(name) => LoadRun(w, ch, k, a, d, ip, t, st, s, name);
    case Bin(_, _, _) => SimBin(w, fuel, e, ch, k, a, d, ip, t, st, s);
    case Un(_, _) => SimUn(w, fuel, e, ch, k, a, d, ip, t, st, s);
    case Call(_, _) => SimCall(w, fuel, e, ch, k, a, d, ip, t, st, s);
  }

  lemma {:induction false} SimBin(w: World, fuel: nat, e: Expr, ch: Chunk, k: seq<Frame>, a: Config, d: nat, ip: nat, t: Tab,
                                  st: seq<Value>, s: State)
    requires e.Bin? && OkOperand(e) && Pre(w, ch, k, a, GenExpr(e, ip, t), d, ip, t.locals, st, s)
    requires !EvalExpr(w.c, fuel, e, s).o.Fail?
    ensures Pushes(w, ch, k, a, EvalExpr(w.c, fuel, e, s), ip + |GenExpr(e, ip, t).code|, st, s)
    decreases fuel, e, 0
  {
    hide Linked, Rel, Segment, Reach, Fits, Encode, GenExpr, EvalExpr, Extends;
    WorldFacts(w);
    BinaryGen(e, ip, t);
    BinEval(w.c, fuel, e, s);
    var l := GenExpr(e.left, ip, t);
    var mid := ip + |l.code|;
    var r := GenExpr(e.right, mid, l.tab);
    SegSplit3(ch.code, ip, l.code, r.code, Encode(Binary(e.op)));
    FitsEarlier(w, ch, l.tab, r.tab);
    OperandLocals(e.left, ip, t);
    SimOperand(w, fuel, e.left, ch, k, a, d, ip, t, st, s);
    var x := EvalExpr(w.c, fuel, e.left, s);
    RelState(s, x.st, d, t.locals, st);
    RelPush(x.st, d, t.locals, st, [x.o.v]);
    SimOperand(w, fuel, e.right, ch, k, a, d, mid, l.tab, st + [x.o.v], x.st);
    var y := EvalExpr(w.c, fuel, e.right, x.st);
    GoBinary(w.m, a, ch, k, mid + |r.code|, st, x.o.v, y.o.v, y.st, e.op);
  }

  lemma {:induction false} SimUn(w: World, fuel: nat, e: Expr, ch: Chunk, k: seq<Frame>, a: Config, d: nat, ip: nat, t: Tab,
                                 st: seq<Value>, s: State)
    requires e.Un? && OkOperand(e) && Pre(w, ch, k, a, GenExpr(e, ip, t), d, ip, t.locals, st, s)
    requires !EvalExpr(w.c, fuel, e, s).o.Fail?
    ensures Pushes(w, ch, k, a, EvalExpr(w.c, fuel, e, s), ip + |GenExpr(e, ip, t).code|, st, s)
    decreases fuel, e, 0
  {
    hide Linked, Rel, Segment, Reach, Fits, Encode, GenExpr, EvalExpr, Extends;
    WorldFacts(w);
    UnaryGen(e, ip, t);
    UnEval(w.c, fuel, e, s);
    var x := GenExpr(e.operand, ip, t);
    var op := if e.uop.Not? then Invert else Negate;
    SegSplit(ch.code, ip, x.code, Encode(op));
    SimOperand(w, fuel, e.operand, ch, k, a, d, ip, t, st, s);
    var v := EvalExpr(w.c, fuel, e.operand, s);
    GoUnary(w.m, a, ch, k, ip + |x.code|, st, v.o.v, v.st, op);
  }

  lemma {:induction false} SimArgs(w: World, fuel: nat, args: seq<Expr>, ch: Chunk, k: seq<Frame>, a: Config, d: nat, ip: nat, t: Tab,
                                   st: seq<Value>, s: State)
    requires OkArgs(args) && Pre(w, ch, k, a, GenArgs(args, ip, t), d, ip, t.locals, st, s) && !EvalArgs(w.c, fuel, args, s).o.Fail?
    ensures var r := EvalArgs(w.c, fuel, args, s);
      && r.o.Norm? && r.st.scopes == s.scopes
      && Reach(w.m, a, At(ch, k, ip + |GenArgs(args, ip, t).code|, st + r.vs, r.st))
    decreases fuel, args, 0
  {
    hide Linked, Rel, Segment, Reach, Fits, EvalExpr, GenExpr, Extends;
    if args == [] {
      assert st + [] == st;
    } else {
      ArgsGen(args, ip, t);
      ArgsEval(w.c, fuel, args, s);
      var x := GenExpr(args[0], ip, t);
      var rest := GenArgs(args[1..], ip + |x.code|, x.tab);
      SegSplit(ch.code, ip, x.code, rest.code);
      FitsEarlier(w, ch, x.tab, rest.tab);
      OperandLocals(args[0], ip, t);
      SimOperand(w, fuel, args[0], ch, k, a, d, ip, t, st, s);
      var v := EvalExpr(w.c, fuel, args[0], s);
      RelState(s, v.st, d, t.locals, st);
      RelPush(v.st, d, t.locals, st, [v.o.v]);
      SimArgs(w, fuel, args[1..], ch, k, a, d, ip + |x.code|, x.tab, st + [v.o.v], v.st);
      var r := EvalArgs(w.c, fuel, args[1..], v.st);
      assert st + [v.o.v] + r.vs == st + ([v.o.v] + r.vs);
    }
  }

  // ---- calls ----

  lemma LinkedName(w: World, f: string)
    requires Linked(w) && f in w.c.funs
    ensures w.c.funs[f].name == f && LinkedAt(w, f)
  {
    assert LinkedAt(w, f);
  }

  lemma LinkedCallee(w: World)
    requires Linked(w)
    ensures Linked(World(w.c.(top := false), w.m))
  {
    var w' := World(w.c.(top := false), w.m);
    forall f ensures LinkedAt(w', f) {
      assert LinkedAt(w, f);
    }
  }

  lemma {:induction false} SimCall(w: World, fuel: nat, e: Expr, ch: Chunk, k: seq<Frame>, a: Config, d: nat, ip: nat, t: Tab,
                                   st: seq<Value>, s: State)
    requires e.Call? && OkOperand(e) && Pre(w, ch, k, a, GenExpr(e, ip, t), d, ip, t.locals, st, s)
    requires !EvalExpr(w.c, fuel, e, s).o.Fail?
    ensures Pushes(w, ch, k, a, EvalExpr(w.c, fuel, e, s), ip + |GenExpr(e, ip, t).code|, st, s)
    decreases fuel, e, 0
  {
    hide Rel, Segment, Reach, Encode, GenExpr, GenArgs, EvalExpr, EvalArgs, EvalBlock, Extends, LinkedAt;
    CallGen(e, ip, t);
    CallEval(w.c, fuel, e, s);
    var g := GenArgs(e.args, ip, t);
    var n := InternIndex(g.tab.names, e.fn);
    SegSplit(ch.code, ip, g.code, Encode(CallFn(n, |e.args|)));
    FitsEarlier(w, ch, g.tab, GenExpr(e, ip, t).tab);
    SimArgs(w, fuel, e.args, ch, k, a, d, ip, t, st, s);
    var r := EvalArgs(w.c, fuel, e.args, s);
    CallRun(w, fuel, e, ch, k, a, ip + |g.code|, g.tab, st, r.vs, r.st);
  }

  // The outcome of a call, from its arguments on.
  function Called(c: Ctx, fuel: nat, fn: string, vs: seq<Value>, s: State): Res
    requires fuel > 0
  {
    if fn !in c.funs then Res(Norm(Null), s)
    else
      var f := c.funs[fn];
      var b := EvalBlock(c.(top := false), fuel - 1, f.body, State([ParamScope(f.params, Fitted(vs, |f.params|))], s.globals, s.out));
      var back := State(s.scopes, b.st.globals, b.st.out);
      if b.o.Norm? || b.o.Ret? then Res(Norm(b.o.v), back) else if b.o.Thrown? then Res(b.o, back) else Res(Fail, back)
  }

  // Once the arguments are on top of the stack, whatever lies below them, the call leaves its value in their place.
  lemma {:induction false} CallRun(w: World, fuel: nat, e: Expr, ch: Chunk, k: seq<Frame>, a: Config, ip: nat, t: Tab,
                                   base: seq<Value>, vs: seq<Value>, s: State)
    requires e.Call? && |vs| == |e.args| < 256 && Linked(w) && Interned(t.names, e.fn) <= w.m.names && |ch.code| < 65536
    requires Segment(ch.code, ip, Encode(CallFn(InternIndex(t.names, e.fn), |e.args|)))
    requires Reach(w.m, a, At(ch, k, ip, base + vs, s))
    requires fuel > 0 && !Called(w.c, fuel, e.fn, vs, s).o.Fail?
    ensures Pushes(w, ch, k, a, Called(w.c, fuel, e.fn, vs, s), ip + 4, base, s)
    decreases fuel, e, 0, 0
  {
    hide Segment, Reach, Encode, EvalBlock, LinkedAt;
    var n := InternIndex(t.names, e.fn);
    InternFinal(t.names, w.m.names, e.fn);
    if e.fn !in w.c.funs {
      NotLinked(w, e.fn);
      GoMissing(w.m, a, ch, k, ip, base, vs, s, n);
    } else {
      LinkedName(w, e.fn);
      var f := w.c.funs[e.fn];
      var entry := EnterCall(w, a, ch, k, ip, base, vs, s, n, f);
      LinkedCallee(w);
      var bound := Fitted(vs, |f.params|);
      SimFunction(World(w.c.(top := false), w.m), fuel - 1, f, k + [Frame(ch, ip + 4, base)], a, bound, s);
      var b := EvalBlock(w.c.(top := false), fuel - 1, f.body, State([ParamScope(f.params, bound)], s.globals, s.out));
      ResumeCaller(b.o.v, k, ch, ip + 4, base, State(s.scopes, b.st.globals, b.st.out));
    }
  }

  lemma NotLinked(w: World, f: string)
    requires Linked(w) && f !in w.c.funs
    ensures f !in w.m.functions
  {
    assert LinkedAt(w, f);
  }

  lemma EnterCall(w: World, a: Config, ch: Chunk, k: seq<Frame>, ip: nat, st: seq<Value>, vs: seq<Value>, s: State, n: nat, f: FnDecl)
      returns (t: Tab)
    requires Ready(w.m, a, ch, k, ip, st + vs, s, CallFn(n, |vs|)) && NameOf(w.m, n) == f.name
    requires f.name in w.c.funs && f == w.c.funs[f.name] && LinkedAt(w, f.name)
    ensures f.name in w.m.functions
    ensures Reach(w.m, a, At(w.m.functions[f.name].chunk, k + [Frame(ch, ip + 4, st)], 0, Fitted(vs, |f.params|), s))
  {
    hide Reach, Encode, GenFunction, OkFunction, Segment;
    t :| FromDecl(w.m, f, t);
    GoCall(w.m, a, ch, k, ip, st, vs, s, n);
  }

  lemma FunctionParts(decl: FnDecl, t: Tab)
    ensures var b := GenInner(decl.body, 0, Tab(decl.params, t.names, [], t.functions));
      GenFunction(decl, t) == Out(b.code + GenEnd(decl.body, b.code), b.tab)
  {
  }

  // A function, entered with its arguments, returns the value of its body to the caller.
  lemma {:induction false} SimFunction(w: World, fuel: nat, f: FnDecl, k: seq<Frame>, a: Config, vs: seq<Value>, s: State)
    requires Linked(w) && f.name in w.c.funs && f == w.c.funs[f.name] && |f.params| == |vs| && f.name in w.m.functions
    requires Reach(w.m, a, At(w.m.functions[f.name].chunk, k, 0, vs, s))
    requires !EvalBlock(w.c, fuel, f.body, State([ParamScope(f.params, vs)], s.globals, s.out)).o.Fail?
    ensures var b := EvalBlock(w.c, fuel, f.body, State([ParamScope(f.params, vs)], s.globals, s.out));
      (b.o.Norm? || b.o.Ret?) && Reach(w.m, a, Resume(b.o.v, k, b.st.globals, b.st.out))
    decreases fuel, f.body, 5
  {
    hide Rel, Segment, Reach, Encode, GenInner, EvalBody, GenEnd, GenFunction;
    assert LinkedAt(w, f.name);
    var t :| FromDecl(w.m, f, t);
    FunctionParts(f, t);
    var ch := w.m.functions[f.name].chunk;
    var t0 := Tab(f.params, t.names, [], t.functions);
    var out := GenInner(f.body, 0, t0);
    var end := GenEnd(f.body, out.code);
    var s0 := PushScope(State([ParamScope(f.params, vs)], s.globals, s.out));
    RelEntry(f.params, vs, s.globals, s.out);
    assert Segment(ch.code, 0, out.code + end) by { WholeSegment(ch.code); }
    SegSplit(ch.code, 0, out.code, end);
    assert At(ch, k, 0, vs, s) == At(ch, k, 0, vs, s0);
    var st' := SimInner(w, fuel, f.body, Body, true, ch, k, a, 2, 0, t0, vs, s0);
    var r := EvalBody(w.c, fuel, f.body, s0);
    if r.o.Norm? {
      EndRun(w, fuel, f.body, out.code, ch, k, a, st', r, s0);
    }
  }

  lemma WholeSegment(code: seq<nat>)
    ensures Segment(code, 0, code)
  {
    assert code[0..|code|] == code;
  }

  // The end of a body returns its value; a body that ends in `return` never gets there.
  lemma EndRun(w: World, fuel: nat, b: Block, inner: seq<nat>, ch: Chunk, k: seq<Frame>, a: Config, st: seq<Value>, r: Res, s: State)
    requires OkEnd(b, inner) && Segment(ch.code, |inner|, GenEnd(b, inner)) && r == EvalBody(w.c, fuel, b, s) && r.o.Norm?
    requires Reach(w.m, a, At(ch, k, |inner|, st, r.st)) && (b.tail.Some? ==> TopOr(st) == r.o.v)
    ensures Reach(w.m, a, Resume(r.o.v, k, r.st.globals, r.st.out))
  {
    hide Segment, Reach, Encode;
    if b.tail.Some? {
      GoLeave(w.m, a, ch, k, |inner|, st, r.st);
    } else {
      assert r.o.v == Null;
      if EndsInReturn(b) { NoNormAfterReturn(w.c, fuel, b.stmts, s); }
      SegSplit(ch.code, |inner|, Encode(PushNull), Encode(Leave));
      GoPush(w.m, a, ch, k, |inner|, st, r.st, PushNull);
      GoLeave(w.m, a, ch, k, |inner| + 1, st + [Null], r.st);
    }
  }

  lemma {:induction false} NoNormAfterReturn(c: Ctx, fuel: nat, ss: seq<Stmt>, s: State)
    requires ss != [] && ss[|ss|-1].Return?
    ensures !EvalStmts(c, fuel, ss, s).o.Norm?
  {
    if |ss| > 1 {
      NoNormAfterReturn(c, fuel, ss[1..], EvalStmt(c, fuel, ss[0], s).st);
    }
  }

  // ---- expressions that may branch ----

  // `st'` keeps the locals of `r`, has grown by at least `n`, and ends in the value if one is asked for.
  ghost predicate Grown(d: nat, locals: seq<string>, st: seq<Value>, st': seq<Value>, n: nat, value: bool, r: Res) {
    r.o.Norm? ==> Rel(r.st, d, locals, st') && |st'| >= |st| + n && (value ==> TopOr(st') == r.o.v)
  }

  lemma IfEval(c: Ctx, fuel: nat, e: Expr, s: State)
    requires e.If? && c.mode.Vm?
    ensures var x := EvalExpr(c, fuel, e.cond, s);
      var r := EvalExpr(c, fuel, e, s);
      if !x.o.Norm? then r == x
      else r == if c.prims.truthy(x.o.v) then EvalBlock(c, fuel, e.thn, x.st)
                else if e.els.Some? then EvalBlock(c, fuel, e.els.value, x.st)
                else Res(Norm(Null), x.st)
  {
  }

  lemma {:induction false} SimExpr(w: World, fuel: nat, e: Expr, v: bool, ch: Chunk, k: seq<Frame>, a: Config, d: nat, ip: nat, t: Tab,
                                   st: seq<Value>, s: State) returns (st': seq<Value>)
    requires OkExpr(e, v) && Pre(w, ch, k, a, GenExpr(e, ip, t), d, ip, t.locals, st, s) && !EvalExpr(w.c, fuel, e, s).o.Fail?
    ensures var r := EvalExpr(w.c, fuel, e, s);
      Ends(w, ch, k, a, r, ip + |GenExpr(e, ip, t).code|, st') && Grown(d, t.locals, st, st', 1, v, r)
    decreases fuel, e, 3
  {
    hide Linked, Rel, Segment, Reach, Fits, GenExpr, EvalExpr, OkBranch, OkArgs;
    if OkOperand(e) {
      SimOperand(w, fuel, e, ch, k, a, d, ip, t, st, s);
      var r := EvalExpr(w.c, fuel, e, s);
      st' := st + [r.o.v];
      RelState(s, r.st, d, t.locals, st);
      RelPush(r.st, d, t.locals, st, [r.o.v]);
    } else if e.If? {
      st' := SimIf(w, fuel, e, v, ch, k, a, d, ip, t, st, s);
    } else if e.Bin? {
      st' := SimLeft(w, fuel, e, ch, k, a, d, ip, t, st, s);
    } else if e.Un? {
      st' := SimTop(w, fuel, e, ch, k, a, d, ip, t, st, s);
    } else {
      st' := SimFirst(w, fuel, e, ch, k, a, d, ip, t, st, s);
    }
  }

  // A value on top of the stack is replaced by another; the locals below stay.
  lemma Replaced(s: State, s': State, d: nat, locals: seq<string>, st: seq<Value>, st1: seq<Value>, v: Value)
    requires Rel(s, d, locals, st1) && |locals| <= |st| < |st1| && s'.scopes == s.scopes
    ensures st1 == st1[..|st1|-1] + [TopOr(st1)] && Rel(s', d, locals, st1[..|st1|-1] + [v])
    ensures TopOr(st1[..|st1|-1] + [v]) == v
  {
    RelAbove(s, d, locals, st1, st1[..|st1|-1] + [v]);
    RelState(s, s', d, locals, st1[..|st1|-1] + [v]);
  }

  // A left operand that leaves more than its value: the operator still takes the top two values.
  lemma {:induction false} SimLeft(w: World, fuel: nat, e: Expr, ch: Chunk, k: seq<Frame>, a: Config, d: nat, ip: nat, t: Tab,
                                   st: seq<Value>, s: State) returns (st': seq<Value>)
    requires e.Bin? && Supported(e.op) && OkExpr(e.left, true) && OkOperand(e.right)
    requires Pre(w, ch, k, a, GenExpr(e, ip, t), d, ip, t.locals, st, s) && !EvalExpr(w.c, fuel, e, s).o.Fail?
    ensures var r := EvalExpr(w.c, fuel, e, s);
      Ends(w, ch, k, a, r, ip + |GenExpr(e, ip, t).code|, st') && Grown(d, t.locals, st, st', 1, true, r)
    decreases fuel, e, 0
  {
    hide Linked, Rel, Segment, Reach, Fits, Encode, GenExpr, EvalExpr, Extends, OkExpr;
    WorldFacts(w);
    BinaryGen(e, ip, t);
    BinEval(w.c, fuel, e, s);
    var l := GenExpr(e.left, ip, t);
    var mid := ip + |l.code|;
    var r := GenExpr(e.right, mid, l.tab);
    SegSplit3(ch.code, ip, l.code, r.code, Encode(Binary(e.op)));
    FitsEarlier(w, ch, l.tab, r.tab);
    ExprLocals(e.left, true, ip, t);
    RelHeight(s, d, t.locals, st);
    st' := SimExpr(w, fuel, e.left, true, ch, k, a, d, ip, t, st, s);
    var x := EvalExpr(w.c, fuel, e.left, s);
    if x.o.Norm? {
      var st1 := st';
      SimOperand(w, fuel, e.right, ch, k, a, d, mid, l.tab, st1, x.st);
      var y := EvalExpr(w.c, fuel, e.right, x.st);
      var v := Apply(w.c.prims, e.op, x.o.v, y.o.v);
      Replaced(x.st, y.st, d, t.locals, st, st1, v);
      var base := st1[..|st1|-1];
      GoBinary(w.m, a, ch, k, mid + |r.code|, base, x.o.v, y.o.v, y.st, e.op);
      st' := base + [v];
    }
  }

  lemma {:induction false} SimTop(w: World, fuel: nat, e: Expr, ch: Chunk, k: seq<Frame>, a: Config, d: nat, ip: nat, t: Tab,
                                  st: seq<Value>, s: State) returns (st': seq<Value>)
    requires e.Un? && OkExpr(e.operand, true)
    requires Pre(w, ch, k, a, GenExpr(e, ip, t), d, ip, t.locals, st, s) && !EvalExpr(w.c, fuel, e, s).o.Fail?
    ensures var r := EvalExpr(w.c, fuel, e, s);
      Ends(w, ch, k, a, r, ip + |GenExpr(e, ip, t).code|, st') && Grown(d, t.locals, st, st', 1, true, r)
    decreases fuel, e, 0
  {
    hide Linked, Rel, Segment, Reach, Fits, Encode, GenExpr, EvalExpr, Extends, OkExpr;
    WorldFacts(w);
    UnaryGen(e, ip, t);
    UnEval(w.c, fuel, e, s);
    var x := GenExpr(e.operand, ip, t);
    var op := if e.uop.Not? then Invert else Negate;
    SegSplit(ch.code, ip, x.code, Encode(op));
    RelHeight(s, d, t.locals, st);
    st' := SimExpr(w, fuel, e.operand, true, ch, k, a, d, ip, t, st, s);
    var v := EvalExpr(w.c, fuel, e.operand, s);
    if v.o.Norm? {
      var st1 := st';
      var r := EvalExpr(w.c, fuel, e, s);
      Replaced(v.st, r.st, d, t.locals, st, st1, r.o.v);
      GoUnary(w.m, a, ch, k, ip + |x.code|, st1[..|st1|-1], v.o.v, v.st, op);
      st' := st1[..|st1|-1] + [r.o.v];
    }
  }

  // A first argument that leaves more than its value: the call takes as many values from the top as it has arguments.
  lemma {:induction false} SimFirst(w: World, fuel: nat, e: Expr, ch: Chunk, k: seq<Frame>, a: Config, d: nat, ip: nat, t: Tab,
                                    st: seq<Value>, s: State) returns (st': seq<Value>)
    requires e.Call? && 0 < |e.args| < 256 && OkExpr(e.args[0], true) && OkArgs(e.args[1..])
    requires Pre(w, ch, k, a, GenExpr(e, ip, t), d, ip, t.locals, st, s) && !EvalExpr(w.c, fuel, e, s).o.Fail?
    ensures var r := EvalExpr(w.c, fuel, e, s);
      Ends(w, ch, k, a, r, ip + |GenExpr(e, ip, t).code|, st') && Grown(d, t.locals, st, st', 1, true, r)
    decreases fuel, e, 1
  {
    hide Linked, Rel, Segment, Reach, Encode, GenExpr, GenArgs, EvalExpr, EvalArgs, EvalBlock, Extends, OkExpr, OkArgs;
    WorldFacts(w);
    CallGen(e, ip, t);
    CallEval(w.c, fuel, e, s);
    ArgsGen(e.args, ip, t);
    ArgsEval(w.c, fuel, e.args, s);
    var g := GenArgs(e.args, ip, t);
    var n := InternIndex(g.tab.names, e.fn);
    SegSplit(ch.code, ip, g.code, Encode(CallFn(n, |e.args|)));
    FitsEarlier(w, ch, g.tab, GenExpr(e, ip, t).tab);
    var x := GenExpr(e.args[0], ip, t);
    var rest := GenArgs(e.args[1..], ip + |x.code|, x.tab);
    SegSplit(ch.code, ip, x.code, rest.code);
    FitsEarlier(w, ch, x.tab, g.tab);
    ExprLocals(e.args[0], true, ip, t);
    RelHeight(s, d, t.locals, st);
    st' := SimExpr(w, fuel, e.args[0], true, ch, k, a, d, ip, t, st, s);
    var v := EvalExpr(w.c, fuel, e.args[0], s);
    if v.o.Norm? {
      var st1 := st';
      SimArgs(w, fuel, e.args[1..], ch, k, a, d, ip + |x.code|, x.tab, st1, v.st);
      var r := EvalArgs(w.c, fuel, e.args[1..], v.st);
      var all := EvalArgs(w.c, fuel, e.args, s);
      var base := st1[..|st1|-1];
      Replaced(v.st, EvalExpr(w.c, fuel, e, s).st, d, t.locals, st, st1, EvalExpr(w.c, fuel, e, s).o.v);
      assert base + [v.o.v] + r.vs == base + ([v.o.v] + r.vs);
      CallRun(w, fuel, e, ch, k, a, ip + |g.code|, g.tab, base, all.vs, all.st);
      st' := base + [EvalExpr(w.c, fuel, e, s).o.v];
    }
  }

  lemma IfLayout(code: seq<nat>, p: nat, x: seq<nat>, late: nat, a: seq<nat>, end: nat, b: seq<nat>)
    requires Segment(code, p, x + Encode(JumpIfFalse(late)) + a + Encode(Jump(end)) + b)
    ensures Segment(code, p, x) && Segment(code, p + |x|, Encode(JumpIfFalse(late)))
    ensures Segment(code, p + |x| + 3, a) && Segment(code, p + |x| + 3 + |a|, Encode(Jump(end)))
    ensures Segment(code, p + |x| + 3 + |a| + 3, b)
    ensures p + |x| + 3 + |a| + 3 + |b| <= |code|
  {
    hide Encode;
    SegSplit(code, p, x + Encode(JumpIfFalse(late)) + a + Encode(Jump(end)), b);
    SegSplit(code, p, x + Encode(JumpIfFalse(late)) + a, Encode(Jump(end)));
    SegSplit3(code, p, x, Encode(JumpIfFalse(late)), a);
  }

  lemma {:induction false} SimIf(w: World, fuel: nat, e: Expr, v: bool, ch: Chunk, k: seq<Frame>, a: Config, d: nat, ip: nat, t: Tab,
                                 st: seq<Value>, s: State) returns (st': seq<Value>)
    requires e.If? && OkExpr(e, v) && Pre(w, ch, k, a, GenExpr(e, ip, t), d, ip, t.locals, st, s)
    requires !EvalExpr(w.c, fuel, e, s).o.Fail?
    ensures var r := EvalExpr(w.c, fuel, e, s);
      Ends(w, ch, k, a, r, ip + |GenExpr(e, ip, t).code|, st') && Grown(d, t.locals, st, st', 1, v, r)
    decreases fuel, e, 2
  {
    hide Linked, Rel, Segment, Reach, Encode, GenExpr, GenInner, GenElse, EvalExpr, EvalBlock, Extends, Fits, OkBranch;
    WorldFacts(w);
    IfGen(e, ip, t);
    IfEval(w.c, fuel, e, s);
    var x := GenExpr(e.cond, ip, t);
    var mid := ip + |x.code| + 3;
    var g := GenInner(e.thn, mid, x.tab);
    var late := mid + |g.code| + 3;
    var h := GenElse(e.els, late, g.tab);
    var end := late + |h.code|;
    IfLayout(ch.code, ip, x.code, late, g.code, end, h.code);
    ExtendsTrans(x.tab, g.tab, h.tab);
    FitsEarlier(w, ch, x.tab, h.tab);
    FitsEarlier(w, ch, g.tab, h.tab);
    ExprLocals(e.cond, true, ip, t);
    assert OkBranch(e.thn, v);
    InnerLocals(e.thn, v, mid, x.tab);
    st' := SimExpr(w, fuel, e.cond, true, ch, k, a, d, ip, t, st, s);
    var c := EvalExpr(w.c, fuel, e.cond, s);
    if c.o.Norm? {
      var st1 := st';
      FitsSmall(w, ch, h.tab);
      Test(w, a, ch, k, ip + |x.code|, st1, c.st, w.c.prims.truthy(c.o.v), JumpIfFalse(late), late);
      if w.c.prims.truthy(c.o.v) {
        st' := SimBranch(w, fuel, e.thn, v, ch, k, a, d, mid, x.tab, st1, c.st);
        if EvalExpr(w.c, fuel, e, s).o.Norm? {
          GoJump(w.m, a, ch, k, mid + |g.code|, st', EvalExpr(w.c, fuel, e, s).st, end);
        }
      } else {
        st' := SimElse(w, fuel, e.els, v, ch, k, a, d, late, g.tab, st1, c.st);
      }
    }
  }

  lemma FitsSmall(w: World, ch: Chunk, t: Tab)
    requires Fits(w, ch, t)
    ensures |ch.code| < 65536
  {
  }

  // A conditional jump on a value that stays on the stack.
  lemma Test(w: World, a: Config, ch: Chunk, k: seq<Frame>, ip: nat, st: seq<Value>, s: State, b: bool, op: Op, to: nat)
    requires Linked(w) && Reach(w.m, a, At(ch, k, ip, st, s)) && Segment(ch.code, ip, Encode(op)) && to < 65536
    requires (op == JumpIfFalse(to) || op == JumpIfTrue(to)) && st != [] && w.c.prims.truthy(TopOr(st)) == b
    ensures Reach(w.m, a, At(ch, k, if b == op.JumpIfTrue? then to else ip + 3, st, s))
  {
    hide Segment, Reach, Encode, LinkedAt;
    GoBranch(w.m, a, ch, k, ip, st, s, op, to);
  }

  lemma {:induction false} SimElse(w: World, fuel: nat, els: Option<Block>, v: bool, ch: Chunk, k: seq<Frame>, a: Config, d: nat, ip: nat,
                                   t: Tab, st: seq<Value>, s: State) returns (st': seq<Value>)
    requires (els.Some? ==> OkBranch(els.value, v)) && Pre(w, ch, k, a, GenElse(els, ip, t), d, ip, t.locals, st, s)
    requires els.Some? ==> !EvalBlock(w.c, fuel, els.value, s).o.Fail?
    ensures var r := if els.Some? then EvalBlock(w.c, fuel, els.value, s) else Res(Norm(Null), s);
      Ends(w, ch, k, a, r, ip + |GenElse(els, ip, t).code|, st') && Grown(d, t.locals, st, st', 0, v, r)
    decreases fuel, els, 3
  {
    hide Linked, Rel, Segment, Reach, Encode, GenInner, EvalBlock, Fits;
    if els.Some? {
      st' := SimBranch(w, fuel, els.value, v, ch, k, a, d, ip, t, st, s);
    } else {
      GoPush(w.m, a, ch, k, ip, st, s, PushNull);
      st' := st + [Null];
      RelPush(s, d, t.locals, st, [Null]);
    }
  }

  // A branch runs in a scope of its own that stays empty.
  lemma {:induction false} SimBranch(w: World, fuel: nat, b: Block, v: bool, ch: Chunk, k: seq<Frame>, a: Config, d: nat, ip: nat, t: Tab,
                                     st: seq<Value>, s: State) returns (st': seq<Value>)
    requires OkBranch(b, v) && Pre(w, ch, k, a, GenInner(b, ip, t), d, ip, t.locals, st, s) && !EvalBlock(w.c, fuel, b, s).o.Fail?
    ensures var r := EvalBlock(w.c, fuel, b, s);
      Ends(w, ch, k, a, r, ip + |GenInner(b, ip, t).code|, st') && Grown(d, t.locals, st, st', 0, v, r)
    decreases fuel, b, 2
  {
    hide Linked, Segment, Reach, Fits, GenInner, EvalBody, LocalAt;
    RelEnter(s, d, t.locals, st);
    InnerLocals(b, v, ip, t);
    assert At(ch, k, ip, st, s) == At(ch, k, ip, st, PushScope(s));
    st' := SimInner(w, fuel, b, Nested, v, ch, k, a, d, ip, t, st, PushScope(s));
    var r := EvalBody(w.c, fuel, b, PushScope(s));
    if r.o.Norm? {
      RelExit(r.st, d, t.locals, st');
    }
  }

  lemma InnerEval(c: Ctx, fuel: nat, b: Block, s: State)
    ensures var r := EvalStmts(c, fuel, b.stmts, s);
      EvalBody(c, fuel, b, s) == if !r.o.Norm? || b.tail.None? then r else EvalExpr(c, fuel, b.tail.value, r.st)
  {
  }

  lemma {:induction false} SimInner(w: World, fuel: nat, b: Block, level: Level, v: bool, ch: Chunk, k: seq<Frame>, a: Config, d: nat,
                                    ip: nat, t: Tab, st: seq<Value>, s: State) returns (st': seq<Value>)
    requires OkStmts(b.stmts, level) && (b.tail.Some? ==> OkExpr(b.tail.value, v)) && (!level.Nested? ==> |s.scopes| == d)
    requires Pre(w, ch, k, a, GenInner(b, ip, t), d, ip, t.locals, st, s) && !EvalBody(w.c, fuel, b, s).o.Fail?
    ensures var r := EvalBody(w.c, fuel, b, s);
      && Ends(w, ch, k, a, r, ip + |GenInner(b, ip, t).code|, st')
      && Grown(d, GenInner(b, ip, t).tab.locals, st, st', 0, v && b.tail.Some?, r)
    decreases fuel, b, 1
  {
    hide Linked, Rel, Segment, Reach, Fits, GenInner, EvalBody, GenStmts, GenExpr, EvalStmts, EvalExpr, Extends;
    InnerGen(b, ip, t);
    InnerEval(w.c, fuel, b, s);
    var ss := GenStmts(b.stmts, ip, t);
    if b.tail.None? {
      st' := SimStmts(w, fuel, b.stmts, level, ch, k, a, d, ip, t, st, s);
    } else {
      var x := GenExpr(b.tail.value, ip + |ss.code|, ss.tab);
      SegSplit(ch.code, ip, ss.code, x.code);
      FitsEarlier(w, ch, ss.tab, x.tab);
      st' := SimStmts(w, fuel, b.stmts, level, ch, k, a, d, ip, t, st, s);
      var r := EvalStmts(w.c, fuel, b.stmts, s);
      if r.o.Norm? {
        ExprLocals(b.tail.value, v, ip + |ss.code|, ss.tab);
        st' := SimExpr(w, fuel, b.tail.value, v, ch, k, a, d, ip + |ss.code|, ss.tab, st', r.st);
      }
    }
  }

  // ---- statements ----

  lemma StmtsEval(c: Ctx, fuel: nat, ss: seq<Stmt>, s: State)
    requires ss != []
    ensures var r := EvalStmt(c, fuel, ss[0], s);
      EvalStmts(c, fuel, ss, s) == if r.o.Norm? then EvalStmts(c, fuel, ss[1..], r.st) else r
  {
  }

  lemma {:induction false} SimStmts(w: World, fuel: nat, ss: seq<Stmt>, level: Level, ch: Chunk, k: seq<Frame>, a: Config, d: nat,
                                    ip: nat, t: Tab, st: seq<Value>, s: State) returns (st': seq<Value>)
    requires OkStmts(ss, level) && (!level.Nested? ==> |s.scopes| == d)
    requires Pre(w, ch, k, a, GenStmts(ss, ip, t), d, ip, t.locals, st, s) && !EvalStmts(w.c, fuel, ss, s).o.Fail?
    ensures var r := EvalStmts(w.c, fuel, ss, s);
      && Ends(w, ch, k, a, r, ip + |GenStmts(ss, ip, t).code|, st')
      && Grown(d, GenStmts(ss, ip, t).tab.locals, st, st', 0, false, r)
    decreases fuel, ss, 0
  {
    hide Linked, Rel, Segment, Reach, Fits, GenStmt, EvalStmt, Extends;
    if ss == [] {
      st' := st;
    } else {
      StmtsGen(ss, ip, t);
      StmtsEval(w.c, fuel, ss, s);
      var x := GenStmt(ss[0], ip, t);
      var rest := GenStmts(ss[1..], ip + |x.code|, x.tab);
      SegSplit(ch.code, ip, x.code, rest.code);
      FitsEarlier(w, ch, x.tab, rest.tab);
      st' := SimStmt(w, fuel, ss[0], level, ch, k, a, d, ip, t, st, s);
      var r := EvalStmt(w.c, fuel, ss[0], s);
      if r.o.Norm? {
        st' := SimStmts(w, fuel, ss[1..], level, ch, k, a, d, ip + |x.code|, x.tab, st', r.st);
      }
    }
  }

  lemma {:induction false} SimStmt(w: World, fuel: nat, stmt: Stmt, level: Level, ch: Chunk, k: seq<Frame>, a: Config, d: nat,
                                   ip: nat, t: Tab, st: seq<Value>, s: State) returns (st': seq<Value>)
    requires OkStmt(stmt, level) && (!level.Nested? ==> |s.scopes| == d)
    requires Pre(w, ch, k, a, GenStmt(stmt, ip, t), d, ip, t.locals, st, s) && !EvalStmt(w.c, fuel, stmt, s).o.Fail?
    ensures var r := EvalStmt(w.c, fuel, stmt, s);
      && Ends(w, ch, k, a, r, ip + |GenStmt(stmt, ip, t).code|, st')
      && Grown(d, GenStmt(stmt, ip, t).tab.locals, st, st', 0, false, r)
    decreases fuel, stmt, 4
  {
    hide Linked, Rel, Segment, Reach, Fits, Encode, OkExpr, GenExpr, EvalExpr, GenStmts, EvalBlock;
    match stmt
    case Let(_, x) => st' := SimTailed(w, fuel, stmt, x, level, ch, k, a, d, ip, t, st, s);
    case Assign(_, x) => st' := SimTailed(w, fuel, stmt, x, level, ch, k, a, d, ip, t, st, s);
    case Output(x) => st' := SimTailed(w, fuel, stmt, x, level, ch, k, a, d, ip, t, st, s);
    case ExprStmt(x) => st' := SimTailed(w, fuel, stmt, x, level, ch, k, a, d, ip, t, st, s);
    case While(_, _) => st' := SimWhile(w, fuel, stmt, ch, k, a, d, ip, t, st, s);
    case DoWhile(_, _) => st' := SimDoWhile(w, fuel, stmt, ch, k, a, d, ip, t, st, s);
    case Return(result) =>
      if result.Some? {
        st' := SimTailed(w, fuel, stmt, result.value, level, ch, k, a, d, ip, t, st, s);
      } else {
        ReturnNull(w, ch, k, a, ip, st, s);
        st' := st;
      }
    case FnDef(_) => st' := st;
  }

  lemma ReturnNull(w: World, ch: Chunk, k: seq<Frame>, a: Config, ip: nat, st: seq<Value>, s: State)
    requires Segment(ch.code, ip, Encode(PushNull) + Encode(Leave)) && Reach(w.m, a, At(ch, k, ip, st, s))
    ensures Reach(w.m, a, Resume(Null, k, s.globals, s.out))
  {
    hide Segment, Reach, Encode;
    SegSplit(ch.code, ip, Encode(PushNull), Encode(Leave));
    GoPush(w.m, a, ch, k, ip, st, s, PushNull);
    GoLeave(w.m, a, ch, k, ip + 1, st + [Null], s);
  }

  // Statements that evaluate one expression and act on its value.
  predicate Tailed(stmt: Stmt, x: Expr) {
    match stmt
    case Let(_, e) => e == x
    case Assign(_, e) => e == x
    case Output(e) => e == x
    case ExprStmt(e) => e == x
    case Return(e) => e == Some(x)
    case _ => false
  }

  function GenTail(stmt: Stmt, t: Tab): Out {
    match stmt
    case Let(name, _) => GenBind(name, t)
    case Assign(name, _) => GenStore(name, t)
    case Output(_) => One(Print, t)
    case ExprStmt(_) => One(Pop, t)
    case _ => One(Leave, t)
  }

  function Finish(c: Ctx, stmt: Stmt, v: Value, s: State): Res {
    match stmt
    case Let(name, _) => BindVar(c, name, v, s)
    case Assign(name, _) => WriteVar(c, name, v, s)
    case Output(_) => Res(Norm(v), s.(out := s.out + [c.prims.show(v)]))
    case Return(_) => Res(Ret(v), s)
    case _ => Res(Norm(v), s)
  }

  lemma TailedParts(c: Ctx, fuel: nat, stmt: Stmt, x: Expr, base: nat, t: Tab, s: State)
    requires Tailed(stmt, x)
    ensures var g := GenExpr(x, base, t);
      GenStmt(stmt, base, t) == Out(g.code + GenTail(stmt, g.tab).code, GenTail(stmt, g.tab).tab)
      && Extends(g.tab, GenTail(stmt, g.tab).tab)
    ensures var r := EvalExpr(c, fuel, x, s);
      EvalStmt(c, fuel, stmt, s) == if r.o.Norm? then Finish(c, stmt, r.o.v, r.st) else r
  {
    hide GenExpr, EvalExpr, Encode;
  }

  lemma {:induction false} SimTailed(w: World, fuel: nat, stmt: Stmt, x: Expr, level: Level, ch: Chunk, k: seq<Frame>, a: Config, d: nat,
                                     ip: nat, t: Tab, st: seq<Value>, s: State) returns (st': seq<Value>)
    requires Tailed(stmt, x) && x < stmt && OkExpr(x, !stmt.ExprStmt?) && (stmt.Let? ==> |s.scopes| == d)
    requires Pre(w, ch, k, a, GenStmt(stmt, ip, t), d, ip, t.locals, st, s) && !EvalStmt(w.c, fuel, stmt, s).o.Fail?
    ensures var r := EvalStmt(w.c, fuel, stmt, s);
      && Ends(w, ch, k, a, r, ip + |GenStmt(stmt, ip, t).code|, st')
      && Grown(d, GenStmt(stmt, ip, t).tab.locals, st, st', 0, false, r)
    decreases fuel, stmt, 3
  {
    hide Linked, Rel, Segment, Reach, Fits, Encode, GenExpr, EvalExpr, GenTail, Finish, GenStmt, EvalStmt, Extends, Tailed;
    TailedParts(w.c, fuel, stmt, x, ip, t, s);
    var g := GenExpr(x, ip, t);
    var tail := GenTail(stmt, g.tab);
    SegSplit(ch.code, ip, g.code, tail.code);
    FitsEarlier(w, ch, g.tab, tail.tab);
    ExprLocals(x, !stmt.ExprStmt?, ip, t);
    st' := SimExpr(w, fuel, x, !stmt.ExprStmt?, ch, k, a, d, ip, t, st, s);
    var r := EvalExpr(w.c, fuel, x, s);
    RelHeight(s, d, t.locals, st);
    if r.o.Norm? {
      st' := TailRun(w, stmt, x, r.o.v, ch, k, a, d, ip + |g.code|, g.tab, |st|, st', r.st);
    }
  }

  // From the value of the expression to the end of the statement; `n` is the height before the expression.
  lemma TailRun(w: World, stmt: Stmt, x: Expr, v: Value, ch: Chunk, k: seq<Frame>, a: Config, d: nat, ip: nat, t: Tab, n: nat,
                st: seq<Value>, s: State) returns (st': seq<Value>)
    requires Tailed(stmt, x) && Pre(w, ch, k, a, GenTail(stmt, t), d, ip, t.locals, st, s) && !Finish(w.c, stmt, v, s).o.Fail?
    requires |st| > n >= |t.locals| && (!stmt.ExprStmt? ==> TopOr(st) == v) && (stmt.Let? ==> |s.scopes| == d)
    ensures var r := Finish(w.c, stmt, v, s);
      && Ends(w, ch, k, a, r, ip + |GenTail(stmt, t).code|, st')
      && (r.o.Norm? ==> Rel(r.st, d, GenTail(stmt, t).tab.locals, st') && |st'| >= n)
  {
    hide LinkedAt, Rel, Segment, Reach, Encode;
    match stmt
    case Let(name, _) =>
      GoStoreLocal(w.m, a, ch, k, ip, st, s, |t.locals|);
      st' := st[|t.locals| := v];
      RelBind(s, d, t.locals, st, name, v);
    case Assign(name, _) => st' := AssignRun(w, name, v, ch, k, a, d, ip, t, st, s);
    case Output(_) =>
      GoPrint(w.m, a, ch, k, ip, st, s);
      st' := st[..|st|-1];
      RelState(s, Finish(w.c, stmt, v, s).st, d, t.locals, st);
      RelAbove(Finish(w.c, stmt, v, s).st, d, t.locals, st, st');
    case ExprStmt(_) =>
      GoPop(w.m, a, ch, k, ip, st, s);
      st' := st[..|st|-1];
      RelAbove(s, d, t.locals, st, st');
    case Return(_) =>
      GoLeave(w.m, a, ch, k, ip, st, s);
      st' := st;
  }

  lemma AssignRun(w: World, name: string, v: Value, ch: Chunk, k: seq<Frame>, a: Config, d: nat, ip: nat, t: Tab,
                  st: seq<Value>, s: State) returns (st': seq<Value>)
    requires Pre(w, ch, k, a, GenStore(name, t), d, ip, t.locals, st, s) && |st| > |t.locals| && TopOr(st) == v
    ensures var r := WriteVar(w.c, name, v, s);
      && r.o.Norm? && |st'| == |st| && Rel(r.st, d, t.locals, st')
      && Reach(w.m, a, At(ch, k, ip + |GenStore(name, t).code|, st', r.st))
  {
    hide LinkedAt, Segment, Reach, Encode, LocalAt;
    assert (Innermost(s.scopes, name).Some? <==> name in t.locals) by { LocalKnown(s, d, t.locals, st, name); }
    if name in t.locals {
      var i := SlotOf(t.locals, name).value;
      GoStoreLocal(w.m, a, ch, k, ip, st, s, i);
      st' := st[i := v];
      RelWrite(s, d, t.locals, st, name, v);
    } else {
      InternFinal(t.names, w.m.names, name);
      GoStoreGlobal(w.m, a, ch, k, ip, st, s, InternIndex(t.names, name));
      st' := st;
      RelState(s, s.(globals := s.globals[name := v]), d, t.locals, st);
    }
  }

  lemma RelHeight(s: State, d: nat, locals: seq<string>, st: seq<Value>)
    requires Rel(s, d, locals, st)
    ensures |locals| <= |st|
  {
  }

  lemma LocalKnown(s: State, d: nat, locals: seq<string>, st: seq<Value>, x: string)
    requires Rel(s, d, locals, st)
    ensures Innermost(s.scopes, x).Some? <==> x in locals
  {
    assert LocalAt(s.scopes, locals, st, x);
  }

  // ---- loops ----

  lemma WhileEval(c: Ctx, fuel: nat, stmt: Stmt, s: State)
    requires stmt.While? && c.mode.Vm?
    ensures var x := EvalExpr(c, fuel, stmt.cond, s);
      var r := EvalStmt(c, fuel, stmt, s);
      !r.o.Fail? && (x.o.Norm? || x.o.Ret? || x.o.Fail?) ==>
        && fuel > 0
        && (!x.o.Norm? ==> r == x)
        && (x.o.Norm? ==>
              && (!c.prims.truthy(x.o.v) ==> r == Res(Norm(Null), x.st))
              && (c.prims.truthy(x.o.v) ==>
                    var b := EvalBlock(c, fuel, stmt.body, x.st);
                    && !b.o.Fail?
                    && (b.o.Norm? ==> r == EvalStmt(c, fuel - 1, stmt, b.st))
                    && (b.o.Ret? ==> r == b)))
  {
    hide EvalExpr, EvalBlock;
  }

  lemma {:induction false} SimWhile(w: World, fuel: nat, stmt: Stmt, ch: Chunk, k: seq<Frame>, a: Config, d: nat,
                                    ip: nat, t: Tab, st: seq<Value>, s: State) returns (st': seq<Value>)
    requires stmt.While? && OkStmt(stmt, Nested)
    requires Pre(w, ch, k, a, GenStmt(stmt, ip, t), d, ip, t.locals, st, s) && !EvalStmt(w.c, fuel, stmt, s).o.Fail?
    ensures var r := EvalStmt(w.c, fuel, stmt, s);
      && Ends(w, ch, k, a, r, ip + |GenStmt(stmt, ip, t).code|, st')
      && Grown(d, GenStmt(stmt, ip, t).tab.locals, st, st', 0, false, r)
    decreases fuel, stmt, 3
  {
    hide Linked, Rel, Segment, Reach, Fits, Encode, GenExpr, EvalExpr, GenStmts, GenInner, EvalBlock, GenStmt, EvalStmt, Extends, OkExpr, OkStmts;
    WorldFacts(w);
    WhileGen(stmt, ip, t);
    InnerGen(stmt.body, ip + |GenExpr(stmt.cond, ip, t).code| + 3, GenExpr(stmt.cond, ip, t).tab);
    WhileEval(w.c, fuel, stmt, s);
    var x := GenExpr(stmt.cond, ip, t);
    var mid := ip + |x.code| + 3;
    var b := GenStmts(stmt.body.stmts, mid, x.tab);
    var exit := mid + |b.code| + 3;
    SegSplit(ch.code, ip, x.code + Encode(JumpIfFalse(exit)) + b.code, Encode(Jump(ip)));
    SegSplit3(ch.code, ip, x.code, Encode(JumpIfFalse(exit)), b.code);
    FitsEarlier(w, ch, x.tab, b.tab);
    FitsSmall(w, ch, b.tab);
    SegEnd(ch.code, exit - 3, Encode(Jump(ip)));
    ExprLocals(stmt.cond, true, ip, t);
    StmtsLocals(stmt.body.stmts, mid, x.tab);
    if fuel == 0 { OutOfFuel(w.c, stmt, s); return; }
    if EvalExpr(w.c, fuel, stmt.cond, s).o.Fail? { CondFails(w.c, fuel, stmt, s); return; }
    st' := SimExpr(w, fuel, stmt.cond, true, ch, k, a, d, ip, t, st, s);
    var c := EvalExpr(w.c, fuel, stmt.cond, s);
    if c.o.Norm? {
      Test(w, a, ch, k, ip + |x.code|, st', c.st, w.c.prims.truthy(c.o.v), JumpIfFalse(exit), exit);
      if w.c.prims.truthy(c.o.v) {
        var st1 := st';
        assert OkBranch(stmt.body, false);
        st' := SimBranch(w, fuel, stmt.body, false, ch, k, a, d, mid, x.tab, st1, c.st);
        var r := EvalBlock(w.c, fuel, stmt.body, c.st);
        if r.o.Norm? {
          GoJump(w.m, a, ch, k, exit - 3, st', r.st, ip);
          st' := SimWhile(w, fuel - 1, stmt, ch, k, a, d, ip, t, st', r.st);
        }
      }
    }
  }

  lemma SegEnd(code: seq<nat>, p: nat, part: seq<nat>)
    requires Segment(code, p, part)
    ensures p + |part| <= |code|
  {
  }

  lemma OutOfFuel(c: Ctx, stmt: Stmt, s: State)
    requires stmt.While? || stmt.DoWhile?
    ensures EvalStmt(c, 0, stmt, s).o.Fail?
  {
  }

  lemma CondFails(c: Ctx, fuel: nat, stmt: Stmt, s: State)
    requires stmt.While? && fuel > 0 && EvalExpr(c, fuel, stmt.cond, s).o.Fail?
    ensures EvalStmt(c, fuel, stmt, s).o.Fail?
  {
  }

  lemma DoWhileEval(c: Ctx, fuel: nat, stmt: Stmt, s: State)
    requires stmt.DoWhile? && fuel > 0 && c.mode.Vm?
    ensures var b := EvalBlock(c, fuel, stmt.body, s);
      var r := EvalStmt(c, fuel, stmt, s);
      && (b.o.Fail? ==> r.o.Fail?)
      && (b.o.Ret? ==> r == b)
      && (b.o.Norm? ==>
            var x := EvalExpr(c, fuel, stmt.cond, b.st);
            && (x.o.Fail? ==> r.o.Fail?)
            && (x.o.Ret? ==> r == x)
            && (x.o.Norm? && !r.o.Fail? ==>
                  r == if c.prims.truthy(x.o.v) then EvalStmt(c, fuel - 1, stmt, x.st) else Res(Norm(Null), x.st)))
  {
    hide EvalExpr, EvalBlock;
  }

  lemma {:induction false} SimDoWhile(w: World, fuel: nat, stmt: Stmt, ch: Chunk, k: seq<Frame>, a: Config, d: nat,
                                      ip: nat, t: Tab, st: seq<Value>, s: State) returns (st': seq<Value>)
    requires stmt.DoWhile? && OkStmt(stmt, Nested)
    requires Pre(w, ch, k, a, GenStmt(stmt, ip, t), d, ip, t.locals, st, s) && !EvalStmt(w.c, fuel, stmt, s).o.Fail?
    ensures var r := EvalStmt(w.c, fuel, stmt, s);
      && Ends(w, ch, k, a, r, ip + |GenStmt(stmt, ip, t).code|, st')
      && Grown(d, GenStmt(stmt, ip, t).tab.locals, st, st', 0, false, r)
    decreases fuel, stmt, 3
  {
    hide Linked, Rel, Segment, Reach, Fits, Encode, GenExpr, EvalExpr, GenStmts, GenInner, EvalBlock, GenStmt, EvalStmt, Extends, OkExpr, OkStmts;
    if fuel == 0 { OutOfFuel(w.c, stmt, s); return; }
    WorldFacts(w);
    DoWhileGen(stmt, ip, t);
    InnerGen(stmt.body, ip, t);
    DoWhileEval(w.c, fuel, stmt, s);
    var b := GenStmts(stmt.body.stmts, ip, t);
    var mid := ip + |b.code|;
    var x := GenExpr(stmt.cond, mid, b.tab);
    SegSplit3(ch.code, ip, b.code, x.code, Encode(JumpIfTrue(ip)));
    FitsEarlier(w, ch, b.tab, x.tab);
    FitsSmall(w, ch, x.tab);
    SegEnd(ch.code, mid + |x.code|, Encode(JumpIfTrue(ip)));
    StmtsLocals(stmt.body.stmts, ip, t);
    ExprLocals(stmt.cond, true, mid, b.tab);
    assert OkBranch(stmt.body, false);
    st' := SimBranch(w, fuel, stmt.body, false, ch, k, a, d, ip, t, st, s);
    var r := EvalBlock(w.c, fuel, stmt.body, s);
    if r.o.Norm? {
      st' := SimExpr(w, fuel, stmt.cond, true, ch, k, a, d, mid, b.tab, st', r.st);
      var c := EvalExpr(w.c, fuel, stmt.cond, r.st);
      if c.o.Norm? {
        Test(w, a, ch, k, mid + |x.code|, st', c.st, w.c.prims.truthy(c.o.v), JumpIfTrue(ip), ip);
        if w.c.prims.truthy(c.o.v) {
          st' := SimDoWhile(w, fuel - 1, stmt, ch, k, a, d, ip, t, st', c.st);
        }
      }
    }
  }
}
