// What the bytecode compiler makes of the constructs it has no code for: it leaves jumps out,
// returns what is thrown, and puts null for blocks, `??` and `loop`.  A program and its plain
// form have the same bytecode, so the machine runs the plain one.
module BytecodePlain {
  import opened Wrappers
  import opened Syntax
  import opened Values
  import opened Semantics
  import opened BytecodeMachine
  import opened BytecodeGen
  import opened BytecodeRelation
  import opened Pools
  import opened BytecodeTheorem
  import N = Interpreter

  function PlainExpr(e: Expr): Expr
    decreases e, 1
  {
    match e
    case Lit(_) => e
    case Var(_) => e
    case Bin(op, l, r) => Bin(op, PlainExpr(l), PlainExpr(r))
    case Un(op, x) => Un(op, PlainExpr(x))
    case Call(fn, args) => Call(fn, PlainArgs(args))
    case If(c, t, f) => If(PlainExpr(c), PlainBlock(t), if f.Some? then Some(PlainBlock(f.value)) else None)
    case BlockExpr(_) => Lit(Null)
    case Coalesce(_, _) => Lit(Null)
    case Loop(_) => Lit(Null)
  }

  function PlainArgs(args: seq<Expr>): (r: seq<Expr>)
    ensures |r| == |args|
    decreases args, 0
  {
    if args == [] then [] else [PlainExpr(args[0])] + PlainArgs(args[1..])
  }

  function PlainBlock(b: Block): Block
    decreases b, 0
  {
    Block(PlainStmts(b.stmts), if b.tail.Some? then Some(PlainExpr(b.tail.value)) else None)
  }

  function PlainStmts(ss: seq<Stmt>): seq<Stmt>
    decreases ss, 0
  {
    if ss == [] then []
    else if ss[0].Break? || ss[0].Continue? then PlainStmts(ss[1..])
    else [PlainStmt(ss[0])] + PlainStmts(ss[1..])
  }

  // The tail of a loop body goes too.
  function PlainStmt(st: Stmt): Stmt
    decreases st, 1
  {
    match st
    case Let(x, e) => Let(x, PlainExpr(e))
    case Assign(x, e) => Assign(x, PlainExpr(e))
    case Output(e) => Output(PlainExpr(e))
    case ExprStmt(e) => ExprStmt(PlainExpr(e))
    case While(c, b) => While(PlainExpr(c), Block(PlainStmts(b.stmts), None))
    case DoWhile(b, c) => DoWhile(Block(PlainStmts(b.stmts), None), PlainExpr(c))
    case Return(e) => Return(if e.Some? then Some(PlainExpr(e.value)) else None)
    case Throw(e) => Return(Some(PlainExpr(e)))
    case FnDef(d) => FnDef(d.(body := PlainBlock(d.body)))
    case Break => st
    case Continue => st
  }

  // ---- the same code ----

  lemma {:induction false} ExprSame(e: Expr, base: nat, t: Tab)
    ensures GenExpr(PlainExpr(e), base, t) == GenExpr(e, base, t)
    decreases e, 1
  {
    hide Encode, GenExpr, GenArgs;
    match e
    case Lit(_) =>
    case Var(_) =>
    case Bin(op, l, r) =>
      BinaryGen(e, base, t);
      BinaryGen(PlainExpr(e), base, t);
      ExprSame(l, base, t);
      var x := GenExpr(l, base, t);
      ExprSame(r, base + |x.code|, x.tab);
    case Un(_, x) =>
      UnaryGen(e, base, t);
      UnaryGen(PlainExpr(e), base, t);
      ExprSame(x, base, t);
    case Call(_, args) =>
      CallGen(e, base, t);
      CallGen(PlainExpr(e), base, t);
      ArgsSame(args, base, t);
    case If(_, _, _) => IfSame(e, base, t);
    case BlockExpr(_) => NullGen(e, base, t);
    case Coalesce(_, _) => NullGen(e, base, t);
    case Loop(_) => NullGen(e, base, t);
  }

  lemma NullGen(e: Expr, base: nat, t: Tab)
    requires e.BlockExpr? || e.Coalesce? || e.Loop?
    ensures GenExpr(e, base, t) == GenExpr(Lit(Null), base, t)
  {
  }

  lemma {:induction false} IfSame(e: Expr, base: nat, t: Tab)
    requires e.If?
    ensures GenExpr(PlainExpr(e), base, t) == GenExpr(e, base, t)
    decreases e, 0
  {
    hide Encode, GenExpr, GenInner;
    IfGen(e, base, t);
    IfGen(PlainExpr(e), base, t);
    ExprSame(e.cond, base, t);
    var x := GenExpr(e.cond, base, t);
    var mid := base + |x.code| + 3;
    InnerSame(e.thn, mid, x.tab);
    var a := GenInner(e.thn, mid, x.tab);
    if e.els.Some? { InnerSame(e.els.value, mid + |a.code| + 3, a.tab); }
  }

  lemma {:induction false} ArgsSame(args: seq<Expr>, base: nat, t: Tab)
    ensures GenArgs(PlainArgs(args), base, t) == GenArgs(args, base, t)
    decreases args, 0
  {
    hide Encode, GenExpr, GenArgs;
    if args != [] {
      ArgsGen(args, base, t);
      ArgsGen(PlainArgs(args), base, t);
      ExprSame(args[0], base, t);
      var x := GenExpr(args[0], base, t);
      assert ([PlainExpr(args[0])] + PlainArgs(args[1..]))[1..] == PlainArgs(args[1..]);
      ArgsSame(args[1..], base + |x.code|, x.tab);
    }
  }

  lemma {:induction false} InnerSame(b: Block, base: nat, t: Tab)
    ensures GenInner(PlainBlock(b), base, t) == GenInner(b, base, t)
    decreases b, 0
  {
    hide Encode, GenExpr, GenStmts, GenInner;
    InnerGen(b, base, t);
    InnerGen(PlainBlock(b), base, t);
    StmtsSame(b.stmts, base, t);
    var ss := GenStmts(b.stmts, base, t);
    if b.tail.Some? { ExprSame(b.tail.value, base + |ss.code|, ss.tab); }
  }

  lemma {:induction false} StmtsSame(ss: seq<Stmt>, base: nat, t: Tab)
    ensures GenStmts(PlainStmts(ss), base, t) == GenStmts(ss, base, t)
    decreases ss, 0
  {
    hide Encode, GenStmt, GenStmts, PlainStmt;
    StmtsGen(ss, base, t);
    if ss != [] {
      var x := GenStmt(ss[0], base, t);
      StmtsSame(ss[1..], base + |x.code|, x.tab);
      if ss[0].Break? || ss[0].Continue? {
        JumpGen(ss[0], base, t);
        PrefixNone(GenStmts(ss[1..], base, t));
      } else {
        StmtSame(ss[0], base, t);
        StmtsGen(PlainStmts(ss), base, t);
        assert ([PlainStmt(ss[0])] + PlainStmts(ss[1..]))[1..] == PlainStmts(ss[1..]);
      }
    }
  }

  lemma JumpGen(st: Stmt, base: nat, t: Tab)
    requires st.Break? || st.Continue?
    ensures GenStmt(st, base, t) == Out([], t)
  {
  }

  lemma {:induction false} StmtSame(st: Stmt, base: nat, t: Tab)
    ensures GenStmt(PlainStmt(st), base, t) == GenStmt(st, base, t)
    decreases st, 1
  {
    hide Encode, GenExpr, GenStmts, GenStmt, GenFunction;
    match st
    case Let(_, e) => OperandSame(st, e, base, t);
    case Assign(_, e) => OperandSame(st, e, base, t);
    case Output(e) => OperandSame(st, e, base, t);
    case ExprStmt(e) => OperandSame(st, e, base, t);
    case Return(e) => if e.Some? { OperandSame(st, e.value, base, t); }
    case Throw(e) => OperandSame(st, e, base, t);
    case While(c, b) =>
      WhileGen(st, base, t);
      WhileGen(PlainStmt(st), base, t);
      ExprSame(c, base, t);
      var x := GenExpr(c, base, t);
      StmtsSame(b.stmts, base + |x.code| + 3, x.tab);
    case DoWhile(b, c) =>
      DoWhileGen(st, base, t);
      DoWhileGen(PlainStmt(st), base, t);
      StmtsSame(b.stmts, base, t);
      var x := GenStmts(b.stmts, base, t);
      ExprSame(c, base + |x.code|, x.tab);
    case FnDef(d) =>
      DefinitionGen(st, base, t);
      DefinitionGen(PlainStmt(st), base, t);
      FunctionSame(d, t);
    case Break =>
    case Continue =>
  }

  function Operand(st: Stmt): Option<Expr> {
    match st
    case Let(_, e) => Some(e)
    case Assign(_, e) => Some(e)
    case Output(e) => Some(e)
    case ExprStmt(e) => Some(e)
    case Throw(e) => Some(e)
    case Return(e) => e
    case _ => None
  }

  // The code of a statement with one operand ends in what depends on the operand's tables only.
  function Finish(st: Stmt, x: Out): Out
    requires Operand(st).Some?
  {
    match st
    case Let(name, _) => Out(x.code + GenBind(name, x.tab).code, GenBind(name, x.tab).tab)
    case Assign(name, _) => Out(x.code + GenStore(name, x.tab).code, GenStore(name, x.tab).tab)
    case Output(_) => Then(x, Print)
    case ExprStmt(_) => Then(x, Pop)
    case _ => Then(x, Leave)
  }

  lemma OperandGen(st: Stmt, base: nat, t: Tab)
    requires Operand(st).Some?
    ensures GenStmt(st, base, t) == Finish(st, GenExpr(Operand(st).value, base, t))
  {
    hide Encode, GenExpr, GenStore, GenBind;
  }

  lemma {:induction false} OperandSame(st: Stmt, e: Expr, base: nat, t: Tab)
    requires Operand(st) == Some(e)
    ensures GenStmt(PlainStmt(st), base, t) == GenStmt(st, base, t)
    decreases st, 0
  {
    hide Encode, GenExpr, GenStmt, GenStore, GenBind;
    OperandGen(st, base, t);
    OperandGen(PlainStmt(st), base, t);
    ExprSame(e, base, t);
  }

  lemma DefinitionGen(st: Stmt, base: nat, t: Tab)
    requires st.FnDef?
    ensures var f := GenFunction(st.decl, t);
      GenStmt(st, base, t) == Out([], t.(names := f.tab.names,
                                         functions := f.tab.functions[st.decl.name := FnChunk(Chunk(f.code, f.tab.constants), st.decl.params)]))
  {
    hide GenFunction;
  }

  lemma {:induction false} FunctionSame(d: FnDecl, t: Tab)
    ensures GenFunction(d.(body := PlainBlock(d.body)), t) == GenFunction(d, t)
    decreases d, 0
  {
    hide GenInner;
    InnerSame(d.body, 0, Tab(d.params, t.names, [], t.functions));
  }

  // ---- what the machine does with any program ----

  // Whatever constructs a program uses: if its plain form is supported, the machine ends as the plain form does.
  lemma MachineRunsPlain(prims: Prims, p: Program, fuel: nat) returns (v: Value)
    requires Compilable(PlainStmts(p)) && prims.Valid()
    requires !EvalStmts(Context(prims, PlainStmts(p)), fuel, PlainStmts(p), Initial()).o.Fail?
    ensures ImageOf(prims, p) == ImageOf(prims, PlainStmts(p)) && Start(p) == Start(PlainStmts(p))
    ensures var r := EvalStmts(Context(prims, PlainStmts(p)), fuel, PlainStmts(p), Initial());
      && (r.o.Norm? || r.o.Ret?)
      && Reach(ImageOf(prims, p), Start(p), Done(v, r.st.globals, r.st.out))
      && (r.o.Ret? ==> v == r.o.v)
  {
    hide EvalStmts, Compilable, Reach, GenStmts, PlainStmts;
    StmtsSame(p, 0, Tab([], [], [], map[]));
    v := ByteCodeRuns(prims, PlainStmts(p), fuel);
  }

  // ---- throw ----

  // func f() { throw 1 } output f()
  function ThrowOne(): Program {
    [FnDef(ThrowDecl()), Output(Call("f", []))]
  }

  function ThrowDecl(): FnDecl {
    FnDecl("f", [], Block([Throw(Lit(Int(1)))], None))
  }

  // The interpreter ends by the uncaught throw and prints nothing; the machine takes the thrown value
  // for the result of the call and prints it.
  lemma ThrowReturns(prims: Prims) returns (v: Value)
    requires prims.Valid()
    ensures var r := N.Execute(prims, 1, ThrowOne()); r.o == Thrown(Int(1)) && r.st.out == []
    ensures Reach(ImageOf(prims, ThrowOne()), Start(ThrowOne()), Done(v, map[], [prims.show(Int(1))]))
  {
    hide N.Execute, EvalStmts, Compilable, Reach, PlainStmts;
    ThrowSource(prims);
    ThrowPlain();
    ThrowCompilable();
    ReturnRuns(prims);
    v := MachineRunsPlain(prims, ThrowOne(), 1);
  }

  function ReturnDecl(): FnDecl {
    FnDecl("f", [], Block([Return(Some(Lit(Int(1))))], None))
  }

  function ReturnOne(): Program {
    [FnDef(ReturnDecl()), Output(Call("f", []))]
  }

  lemma ThrowPlain()
    ensures PlainStmts(ThrowOne()) == ReturnOne()
  {
    var p := ThrowOne();
    assert p[1..][1..] == [] && ThrowDecl().body.stmts[1..] == [];
    assert PlainStmt(ThrowDecl().body.stmts[0]) == Return(Some(Lit(Int(1))));
    assert PlainStmts(ThrowDecl().body.stmts) == ReturnDecl().body.stmts;
    assert PlainStmt(p[0]) == ReturnOne()[0];
    assert PlainArgs([]) == [];
    assert PlainStmt(p[1]) == p[1];
    assert PlainStmts(p[1..]) == [p[1]];
  }

  lemma ThrowSource(prims: Prims)
    ensures var r := N.Execute(prims, 1, ThrowOne()); r.o == Thrown(Int(1)) && r.st.out == []
  {
    var p := ThrowOne();
    var c := N.Ctx(prims, map["f" := ThrowDecl()], map[]);
    assert p[..1][..0] == [] && p[1..][1..] == [];
    assert Functions(p[..1]) == c.funs;
    assert Functions(p) == c.funs;
    assert N.Code(p[1..]) == [p[1]];
    assert N.Code(p) == [p[1]];
    var s := N.Initial();
    var e := N.Entry(c, ThrowDecl(), [], s);
    assert N.EvalStmt(c, 0, ThrowDecl().body.stmts[0], e) == N.Res(Thrown(Int(1)), e);
    assert N.EvalBody(c, 0, ThrowDecl().body, e) == N.Res(Thrown(Int(1)), e);
    assert N.Invoke(c, 0, "f", [], s) == N.Res(Thrown(Int(1)), N.Back(e, s));
    assert N.EvalArgs(c, 1, [], s) == N.ArgsRes(Norm(Null), [], s);
    assert N.EvalExpr(c, 1, Call("f", []), s).o == Thrown(Int(1));
    assert N.EvalStmt(c, 1, p[1], s).o == Thrown(Int(1));
  }

  lemma ReturnRuns(prims: Prims)
    ensures var r := EvalStmts(Context(prims, ReturnOne()), 1, ReturnOne(), Initial());
      r == Res(Norm(Null), Initial().(out := [prims.show(Int(1))]))
  {
    var p := ReturnOne();
    var c := Context(prims, p);
    assert p[..1][..0] == [] && p[1..][1..] == [];
    assert Functions(p[..1]) == map["f" := ReturnDecl()];
    assert c.funs == map["f" := ReturnDecl()];
    var s := Initial();
    var d := c.(top := false);
    var e := State([map[]], map[], []);
    assert EvalStmt(d, 0, ReturnDecl().body.stmts[0], PushScope(e)) == Res(Ret(Int(1)), PushScope(e));
    assert EvalStmts(d, 0, ReturnDecl().body.stmts, PushScope(e)) == Res(Ret(Int(1)), PushScope(e));
    assert PopScope(PushScope(e)) == e;
    assert EvalBlock(d, 0, ReturnDecl().body, e) == Res(Ret(Int(1)), e);
    assert EvalArgs(c, 1, [], s) == ArgsRes(Norm(Null), [], s);
    assert EvalExpr(c, 1, Call("f", []), s) == Res(Norm(Int(1)), s);
    var s' := s.(out := [prims.show(Int(1))]);
    assert EvalStmt(c, 1, p[1], s) == Res(Norm(Int(1)), s');
    assert EvalStmts(c, 1, p[1..], s) == Res(Norm(Null), s');
  }

  lemma ThrowCompilable()
    ensures Compilable(ReturnOne())
  {
    hide GenFunction, GenExpr, GenStmts, GenStmt, OkFunction;
    var p := ReturnOne();
    assert p[1..][1..] == [];
    var t0 := EmptyTab();
    ReturnFunction(t0);
    DefinitionGen(p[0], 0, t0);
    var t := GenStmt(p[0], 0, t0).tab;
    CallOne(t);
    StmtsGen(p, 0, t0);
    StmtsGen(p[1..], 0, t);
    StmtsGen(p[1..][1..], 5, GenStmt(p[1], 0, t).tab);
  }

  lemma ReturnFunction(t: Tab)
    requires t == EmptyTab()
    ensures OkFunction(ReturnDecl(), t)
    ensures GenFunction(ReturnDecl(), t).tab.names == [] && GenFunction(ReturnDecl(), t).tab.functions == map[]
  {
    hide GenExpr, GenStmt, GenStmts, GenInner;
    var body := ReturnDecl().body;
    var t1 := t.(constants := [Int(1)]);
    assert body.stmts[1..] == [];
    assert t.constants + [Int(1)] == t1.constants;
    OneLit(t);
    OperandGen(body.stmts[0], 0, t);
    StmtsGen(body.stmts, 0, t);
    StmtsGen([], 4, t1);
    InnerGen(body, 0, t);
  }

  lemma OneLit(t: Tab)
    ensures GenExpr(Lit(Int(1)), 0, t) == Out(Encode(PushConst(|t.constants|)), t.(constants := t.constants + [Int(1)]))
  {
  }

  lemma CallOne(t: Tab)
    requires t.locals == [] && t.names == [] && t.constants == []
    ensures var x := GenStmt(ReturnOne()[1], 0, t);
      |x.code| == 5 && x.tab == t.(names := ["f"])
  {
    hide GenExpr, GenArgs, GenStmt;
    CallGen(Call("f", []), 0, t);
    ArgsGen([], 0, t);
    OperandGen(ReturnOne()[1], 0, t);
    assert Interned([], "f") == ["f"];
  }
}
