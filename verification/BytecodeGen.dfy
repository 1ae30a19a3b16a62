// The bytes the bytecode compiler emits, as a function of the tree and of the
// address at which the fragment starts.
module BytecodeGen {
  import opened Wrappers
  import opened Syntax
  import opened Pools
  import opened BytecodeMachine

  // The compiler's tables: `locals` and `constants` belong to the chunk, the rest is shared.
  datatype Tab = Tab(locals: seq<string>, names: seq<string>, constants: seq<Value>, functions: map<string, FnChunk>)

  datatype Out = Out(code: seq<nat>, tab: Tab)

  // Tables only grow; functions may be replaced.
  ghost predicate Extends(a: Tab, b: Tab) {
    a.locals <= b.locals && a.names <= b.names && a.constants <= b.constants
  }

  // The last declaration of a name wins.
  function SlotOf(locals: seq<string>, name: string): (r: Option<nat>)
    ensures r.Some? ==> r.value < |locals| && locals[r.value] == name && name !in locals[r.value + 1..]
    ensures r.None? <==> name !in locals
  {
    if locals == [] then None
    else if locals[|locals|-1] == name then Some(|locals|-1)
    else SlotOf(locals[..|locals|-1], name)
  }

  function One(op: Op, t: Tab): Out {
    Out(Encode(op), t)
  }

  function Then(a: Out, op: Op): Out {
    Out(a.code + Encode(op), a.tab)
  }

  function GenConst(v: Value, t: Tab): Out {
    match v
    case Null => One(PushNull, t)
    case Bool(b) => One(if b then PushTrue else PushFalse, t)
    case _ => One(PushConst(|t.constants|), t.(constants := t.constants + [v]))
  }

  function GenLoad(name: string, t: Tab): Out {
    match SlotOf(t.locals, name)
    case Some(i) => One(LoadLocal(i), t)
    case None => One(LoadGlobal(InternIndex(t.names, name)), t.(names := Interned(t.names, name)))
  }

  function GenStore(name: string, t: Tab): Out {
    match SlotOf(t.locals, name)
    case Some(i) => One(StoreLocal(i), t)
    case None => One(StoreGlobal(InternIndex(t.names, name)), t.(names := Interned(t.names, name)))
  }

  function GenBind(name: string, t: Tab): Out {
    One(StoreLocal(|t.locals|), t.(locals := t.locals + [name]))
  }

  function GenExpr(e: Expr, base: nat, t: Tab): (r: Out)
    ensures Extends(t, r.tab)
    decreases e, 1
  {
    match e
    case Lit(v) => GenConst(v, t)
    case Var(name) => GenLoad(name, t)
    case Bin(op, left, right) =>
      var l := GenExpr(left, base, t);
      var r := GenExpr(right, base + |l.code|, l.tab);
      Out(l.code + r.code + (if Supported(op) then Encode(Binary(op)) else []), r.tab)
    case Un(uop, operand) =>
      Then(GenExpr(operand, base, t), if uop.Not? then Invert else Negate)
    case Call(fn, args) =>
      var a := GenArgs(args, base, t);
      Out(a.code + Encode(CallFn(InternIndex(a.tab.names, fn), |args|)), a.tab.(names := Interned(a.tab.names, fn)))
    case If(cond, thn, els) =>
      var c := GenExpr(cond, base, t);
      var mid := base + |c.code| + 3;
      var a := GenInner(thn, mid, c.tab);
      var late := mid + |a.code| + 3;
      var b := if els.Some? then GenInner(els.value, late, a.tab) else One(PushNull, a.tab);
      Out(c.code + Encode(JumpIfFalse(late)) + a.code + Encode(Jump(late + |b.code|)) + b.code, b.tab)
    case BlockExpr(_) => One(PushNull, t)
    case Coalesce(_, _) => One(PushNull, t)
    case Loop(_) => One(PushNull, t)
  }

  function GenArgs(args: seq<Expr>, base: nat, t: Tab): (r: Out)
    ensures Extends(t, r.tab)
    decreases args, 0
  {
    if args == [] then Out([], t)
    else
      var x := GenExpr(args[0], base, t);
      var rest := GenArgs(args[1..], base + |x.code|, x.tab);
      Out(x.code + rest.code, rest.tab)
  }

  // Blocks open no scope: their names stay in the table.
  function GenInner(b: Block, base: nat, t: Tab): (r: Out)
    ensures Extends(t, r.tab)
    decreases b, 0
  {
    var ss := GenStmts(b.stmts, base, t);
    if b.tail.None? then ss
    else
      var x := GenExpr(b.tail.value, base + |ss.code|, ss.tab);
      Out(ss.code + x.code, x.tab)
  }

  function GenStmts(ss: seq<Stmt>, base: nat, t: Tab): (r: Out)
    ensures Extends(t, r.tab)
    decreases ss, 0
  {
    if ss == [] then Out([], t)
    else
      var x := GenStmt(ss[0], base, t);
      var rest := GenStmts(ss[1..], base + |x.code|, x.tab);
      Out(x.code + rest.code, rest.tab)
  }

  function GenStmt(st: Stmt, base: nat, t: Tab): (r: Out)
    ensures Extends(t, r.tab)
    decreases st, 2
  {
    match st
    case Let(name, value) =>
      var x := GenExpr(value, base, t);
      var b := GenBind(name, x.tab);
      Out(x.code + b.code, b.tab)
    case Assign(name, value) =>
      var x := GenExpr(value, base, t);
      var b := GenStore(name, x.tab);
      Out(x.code + b.code, b.tab)
    case Output(value) => Then(GenExpr(value, base, t), Print)
    case ExprStmt(e) => Then(GenExpr(e, base, t), Pop)
    case While(cond, body) =>
      var c := GenExpr(cond, base, t);
      var b := GenStmts(body.stmts, base + |c.code| + 3, c.tab);
      var exit := base + |c.code| + 3 + |b.code| + 3;
      Out(c.code + Encode(JumpIfFalse(exit)) + b.code + Encode(Jump(base)), b.tab)
    case DoWhile(body, cond) =>
      var b := GenStmts(body.stmts, base, t);
      var c := GenExpr(cond, base + |b.code|, b.tab);
      Out(b.code + c.code + Encode(JumpIfTrue(base)), c.tab)
    case Return(result) =>
      if result.None? then Out(Encode(PushNull) + Encode(Leave), t)
      else Then(GenExpr(result.value, base, t), Leave)
    case Throw(value) => Then(GenExpr(value, base, t), Leave)
    case Break => Out([], t)
    case Continue => Out([], t)
    case FnDef(decl) =>
      var f := GenFunction(decl, t);
      Out([], t.(names := f.tab.names,
                 functions := f.tab.functions[decl.name := FnChunk(Chunk(f.code, f.tab.constants), decl.params)]))
  }

  // A null result is added unless there is a tail or the last byte happens to be a return.
  function GenEnd(body: Block, inner: seq<nat>): seq<nat> {
    if body.tail.Some? then Encode(Leave)
    else if inner != [] && inner[|inner|-1] == RETURN then []
    else Encode(PushNull) + Encode(Leave)
  }

  // A function is compiled into a chunk of its own, starting at address 0.
  function GenFunction(decl: FnDecl, t: Tab): (r: Out)
    ensures t.names <= r.tab.names
    decreases decl, 1
  {
    var b := GenInner(decl.body, 0, Tab(decl.params, t.names, [], t.functions));
    Out(b.code + GenEnd(decl.body, b.code), b.tab)
  }

  function GenProgram(p: Program): Out {
    Then(GenStmts(p, 0, Tab([], [], [], map[])), Stop)
  }

  // ---- the equations, one construct at a time ----

  function Prefixed(code: seq<nat>, rest: Out): Out {
    Out(code + rest.code, rest.tab)
  }

  lemma PrefixNone(rest: Out)
    ensures Prefixed([], rest) == rest
  {
    assert [] + rest.code == rest.code;
  }

  lemma PrefixMore(a: seq<nat>, b: seq<nat>, rest: Out)
    ensures Prefixed(a, Prefixed(b, rest)) == Prefixed(a + b, rest)
  {
    assert a + (b + rest.code) == a + b + rest.code;
  }

  lemma BinaryGen(e: Expr, base: nat, t: Tab)
    requires e.Bin?
    ensures var l := GenExpr(e.left, base, t);
      var r := GenExpr(e.right, base + |l.code|, l.tab);
      && GenExpr(e, base, t) == Out(l.code + r.code + (if Supported(e.op) then Encode(Binary(e.op)) else []), r.tab)
      && Extends(l.tab, r.tab)
  {
    hide Encode;
  }

  lemma UnaryGen(e: Expr, base: nat, t: Tab)
    requires e.Un?
    ensures var x := GenExpr(e.operand, base, t);
      GenExpr(e, base, t) == Out(x.code + Encode(if e.uop.Not? then Invert else Negate), x.tab)
  {
    hide Encode;
  }

  lemma CallGen(e: Expr, base: nat, t: Tab)
    requires e.Call?
    ensures var a := GenArgs(e.args, base, t);
      && GenExpr(e, base, t) == Out(a.code + Encode(CallFn(InternIndex(a.tab.names, e.fn), |e.args|)),
                                    a.tab.(names := Interned(a.tab.names, e.fn)))
      && Extends(a.tab, GenExpr(e, base, t).tab)
  {
    hide Encode;
  }

  lemma ArgsGen(args: seq<Expr>, base: nat, t: Tab)
    ensures args == [] ==> GenArgs(args, base, t) == Out([], t)
    ensures args != [] ==>
      var x := GenExpr(args[0], base, t);
      var rest := GenArgs(args[1..], base + |x.code|, x.tab);
      GenArgs(args, base, t) == Prefixed(x.code, rest) && Extends(x.tab, rest.tab)
  {
    hide GenExpr;
  }

  function GenElse(els: Option<Block>, base: nat, t: Tab): (r: Out)
    ensures Extends(t, r.tab)
  {
    if els.Some? then GenInner(els.value, base, t) else One(PushNull, t)
  }

  lemma IfGen(e: Expr, base: nat, t: Tab)
    requires e.If?
    ensures var x := GenExpr(e.cond, base, t);
      var mid := base + |x.code| + 3;
      var a := GenInner(e.thn, mid, x.tab);
      var late := mid + |a.code| + 3;
      var b := GenElse(e.els, late, a.tab);
      && GenExpr(e, base, t) == Out(x.code + Encode(JumpIfFalse(late)) + a.code + Encode(Jump(late + |b.code|)) + b.code, b.tab)
      && Extends(x.tab, a.tab) && Extends(a.tab, b.tab)
  {
    hide Encode, GenInner;
  }

  lemma InnerGen(b: Block, base: nat, t: Tab)
    ensures var ss := GenStmts(b.stmts, base, t);
      && (b.tail.None? ==> GenInner(b, base, t) == ss)
      && (b.tail.Some? ==>
            var x := GenExpr(b.tail.value, base + |ss.code|, ss.tab);
            GenInner(b, base, t) == Out(ss.code + x.code, x.tab) && Extends(ss.tab, x.tab))
  {
    hide GenStmts, GenExpr;
  }

  lemma StmtsGen(ss: seq<Stmt>, base: nat, t: Tab)
    ensures ss == [] ==> GenStmts(ss, base, t) == Out([], t)
    ensures ss != [] ==>
      var x := GenStmt(ss[0], base, t);
      var rest := GenStmts(ss[1..], base + |x.code|, x.tab);
      GenStmts(ss, base, t) == Prefixed(x.code, rest) && Extends(x.tab, rest.tab)
  {
    hide GenStmt;
  }

  lemma WhileGen(st: Stmt, base: nat, t: Tab)
    requires st.While?
    ensures var x := GenExpr(st.cond, base, t);
      var b := GenStmts(st.body.stmts, base + |x.code| + 3, x.tab);
      var exit := base + |x.code| + 3 + |b.code| + 3;
      && GenStmt(st, base, t) == Out(x.code + Encode(JumpIfFalse(exit)) + b.code + Encode(Jump(base)), b.tab)
      && Extends(x.tab, b.tab)
  {
    hide Encode, GenExpr, GenStmts;
  }

  lemma DoWhileGen(st: Stmt, base: nat, t: Tab)
    requires st.DoWhile?
    ensures var b := GenStmts(st.body.stmts, base, t);
      var x := GenExpr(st.cond, base + |b.code|, b.tab);
      && GenStmt(st, base, t) == Out(b.code + x.code + Encode(JumpIfTrue(base)), x.tab)
      && Extends(b.tab, x.tab)
  {
    hide Encode, GenExpr, GenStmts;
  }

  lemma ExtendsTrans(a: Tab, b: Tab, c: Tab)
    requires Extends(a, b) && Extends(b, c)
    ensures Extends(a, c)
  {
  }
}
