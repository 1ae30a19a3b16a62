// The invariant behind the byte code: the first slots of the operand stack hold
// the locals, whatever has piled up above them.
module BytecodeRelation {
  import opened Wrappers
  import opened Syntax
  import opened Values
  import opened Semantics
  import opened BytecodeMachine
  import opened BytecodeGen

  // ---- the programs the compiler supports ----

  // Where a statement stands: only the first two levels may bind names, only the first may define functions.
  datatype Level = Toplevel | Body | Nested

  // Leaves exactly one value on an otherwise unchanged stack.
  predicate OkOperand(e: Expr)
    decreases e, 1
  {
    match e
    case Lit(_) => true
    case Var(_) => true
    case Bin(op, l, r) => Supported(op) && OkOperand(l) && OkOperand(r)
    case Un(_, x) => OkOperand(x)
    case Call(_, args) => |args| < 256 && OkArgs(args)
    case _ => false
  }

  predicate OkArgs(args: seq<Expr>)
    decreases args, 0
  {
    args != [] ==> OkOperand(args[0]) && OkArgs(args[1..])
  }

  // Also conditionals, whose condition stays under the value, and what takes such a value from the top of the
  // stack: as left operand, as operand of a unary operator and as first argument.  `v`: the value is used, so every
  // branch needs one.
  predicate OkExpr(e: Expr, v: bool)
    decreases e, 1
  {
    OkOperand(e) ||
    match e
    case If(cond, thn, els) => OkExpr(cond, true) && OkBranch(thn, v) && (els.Some? ==> OkBranch(els.value, v))
    case Bin(op, l, r) => Supported(op) && OkExpr(l, true) && OkOperand(r)
    case Un(_, x) => OkExpr(x, true)
    case Call(_, args) => 0 < |args| < 256 && OkExpr(args[0], true) && OkArgs(args[1..])
    case _ => false
  }

  predicate OkBranch(b: Block, v: bool)
    decreases b, 0
  {
    OkStmts(b.stmts, Nested) && (b.tail.Some? ==> OkExpr(b.tail.value, v)) && (v ==> b.tail.Some?)
  }

  predicate OkStmts(ss: seq<Stmt>, level: Level)
    decreases ss, 0
  {
    ss != [] ==> OkStmt(ss[0], level) && OkStmts(ss[1..], level)
  }

  predicate OkStmt(st: Stmt, level: Level)
    decreases st, 1
  {
    match st
    case Let(_, x) => !level.Nested? && OkExpr(x, true)
    case Assign(_, x) => OkExpr(x, true)
    case Output(x) => OkExpr(x, true)
    case ExprStmt(x) => OkExpr(x, false)
    case While(c, b) => OkExpr(c, true) && b.tail.None? && OkStmts(b.stmts, Nested)
    case DoWhile(b, c) => OkExpr(c, true) && b.tail.None? && OkStmts(b.stmts, Nested)
    case Return(x) => x.Some? ==> OkExpr(x.value, true)
    case FnDef(_) => level.Toplevel?
    case Throw(_) => false
    case Break => false
    case Continue => false
  }

  predicate EndsInReturn(b: Block) {
    b.stmts != [] && b.stmts[|b.stmts|-1].Return?
  }

  // The end-of-body test looks at one byte, which may also be the last byte of an operand.
  predicate OkEnd(b: Block, inner: seq<nat>) {
    b.tail.Some? || EndsInReturn(b) || inner == [] || inner[|inner|-1] != RETURN
  }

  predicate OkFunction(decl: FnDecl, t: Tab) {
    var inner := GenInner(decl.body, 0, Tab(decl.params, t.names, [], t.functions));
    && OkStmts(decl.body.stmts, Body)
    && (decl.body.tail.Some? ==> OkExpr(decl.body.tail.value, true))
    && OkEnd(decl.body, inner.code)
    && |GenFunction(decl, t).code| < 65536 && |inner.tab.constants| <= 65536 && |inner.tab.locals| <= 256
  }

  // ---- linking ----

  datatype World = World(c: Ctx, m: Image)

  ghost predicate FromDecl(m: Image, decl: FnDecl, t: Tab) {
    var out := GenFunction(decl, t);
    && decl.name in m.functions
    && m.functions[decl.name] == FnChunk(Chunk(out.code, out.tab.constants), decl.params)
    && out.tab.names <= m.names && OkFunction(decl, t)
  }

  ghost predicate LinkedAt(w: World, f: string) {
    if f in w.c.funs then w.c.funs[f].name == f && exists t :: FromDecl(w.m, w.c.funs[f], t) else f !in w.m.functions
  }

  ghost predicate Linked(w: World) {
    && w.c.mode.Vm? && w.c.prims == w.m.prims && w.c.prims.Valid() && |w.m.names| <= 65536
    && forall f :: LinkedAt(w, f)
  }

  // The fragment's tables are part of the finished chunk, and all indexes fit their operands.
  ghost predicate Fits(w: World, ch: Chunk, t: Tab) {
    && t.names <= w.m.names && t.constants <= ch.constants && |t.locals| <= 256
    && |ch.code| < 65536 && |ch.constants| <= 65536
  }

  lemma FitsEarlier(w: World, ch: Chunk, a: Tab, b: Tab)
    requires Extends(a, b) && Fits(w, ch, b)
    ensures Fits(w, ch, a)
  {
  }

  // ---- states ----

  ghost predicate LocalAt(scopes: seq<Scope>, locals: seq<string>, stack: seq<Value>, x: string)
    requires |locals| <= |stack|
  {
    var i := Innermost(scopes, x);
    && (i.Some? <==> x in locals)
    && (i.Some? ==> stack[SlotOf(locals, x).value] == scopes[i.value][x])
  }

  // Scopes beyond the first `d` are those of blocks and bind nothing.
  ghost predicate Rel(s: State, d: nat, locals: seq<string>, stack: seq<Value>) {
    && 0 < d <= |s.scopes| && |locals| <= |stack|
    && (forall i | d <= i < |s.scopes| :: s.scopes[i] == map[])
    && (forall x :: LocalAt(s.scopes, locals, stack, x))
  }

  // Anything above the locals may change.
  lemma RelAbove(s: State, d: nat, locals: seq<string>, a: seq<Value>, b: seq<Value>)
    requires Rel(s, d, locals, a) && |locals| <= |b| && a[..|locals|] == b[..|locals|]
    ensures Rel(s, d, locals, b)
  {
    forall x ensures LocalAt(s.scopes, locals, b, x) {
      assert LocalAt(s.scopes, locals, a, x);
      if x in locals {
        var i := SlotOf(locals, x).value;
        assert a[..|locals|][i] == b[..|locals|][i];
      }
    }
  }

  lemma RelPush(s: State, d: nat, locals: seq<string>, a: seq<Value>, more: seq<Value>)
    requires Rel(s, d, locals, a)
    ensures Rel(s, d, locals, a + more)
  {
    RelAbove(s, d, locals, a, a + more);
  }

  lemma RelState(s: State, s': State, d: nat, locals: seq<string>, a: seq<Value>)
    requires Rel(s, d, locals, a) && s'.scopes == s.scopes
    ensures Rel(s', d, locals, a)
  {
    forall x ensures LocalAt(s'.scopes, locals, a, x) {
      assert LocalAt(s.scopes, locals, a, x);
    }
  }

  lemma RelEnter(s: State, d: nat, locals: seq<string>, a: seq<Value>)
    requires Rel(s, d, locals, a)
    ensures Rel(PushScope(s), d, locals, a)
  {
    forall x ensures LocalAt(PushScope(s).scopes, locals, a, x) {
      assert LocalAt(s.scopes, locals, a, x);
      assert PushScope(s).scopes[..|s.scopes|] == s.scopes;
    }
  }

  lemma RelExit(s: State, d: nat, locals: seq<string>, a: seq<Value>)
    requires Rel(s, d, locals, a) && d < |s.scopes|
    ensures Rel(PopScope(s), d, locals, a)
  {
    forall x ensures LocalAt(PopScope(s).scopes, locals, a, x) {
      assert LocalAt(s.scopes, locals, a, x);
      assert s.scopes[|s.scopes|-1] == map[];
    }
  }

  // Writing a local writes its slot and no other local's.
  lemma RelWrite(s: State, d: nat, locals: seq<string>, a: seq<Value>, x: string, v: Value)
    requires Rel(s, d, locals, a) && x in locals
    ensures Innermost(s.scopes, x).Some?
    ensures var i := Innermost(s.scopes, x).value;
      Rel(s.(scopes := s.scopes[i := s.scopes[i][x := v]]), d, locals, a[SlotOf(locals, x).value := v])
  {
    assert LocalAt(s.scopes, locals, a, x);
    var i := Innermost(s.scopes, x).value;
    var scope: Scope := s.scopes[i][x := v];
    var scopes' := s.scopes[i := scope];
    var a' := a[SlotOf(locals, x).value := v];
    forall y ensures LocalAt(scopes', locals, a', y) {
      assert LocalAt(s.scopes, locals, a, y);
      SameBindings(s.scopes, scopes', y);
      if y in locals && y != x {
        assert locals[SlotOf(locals, y).value] == y && locals[SlotOf(locals, x).value] == x;
      }
    }
  }

  lemma SameBindings(a: seq<Scope>, b: seq<Scope>, x: string)
    requires |a| == |b| && forall i | 0 <= i < |a| :: x in a[i] <==> x in b[i]
    ensures Innermost(a, x) == Innermost(b, x)
  {
  }

  // A new binding takes the next slot and hides an older one of the same name.
  lemma RelBind(s: State, d: nat, locals: seq<string>, a: seq<Value>, x: string, v: Value)
    requires Rel(s, d, locals, a) && |s.scopes| == d && |locals| < |a|
    ensures var top := d - 1;
      Rel(s.(scopes := s.scopes[top := s.scopes[top][x := v]]), d, locals + [x], a[|locals| := v])
  {
    var top := d - 1;
    var scope: Scope := s.scopes[top][x := v];
    var scopes' := s.scopes[top := scope];
    var a' := a[|locals| := v];
    forall y ensures LocalAt(scopes', locals + [x], a', y) {
      assert LocalAt(s.scopes, locals, a, y);
      assert (locals + [x])[..|locals|] == locals;
      if y == x {
        assert SlotOf(locals + [x], x) == Some(|locals|);
        assert Innermost(scopes', x) == Some(top);
      } else {
        SameBindings(s.scopes, scopes', y);
        assert SlotOf(locals + [x], y) == SlotOf(locals, y);
      }
    }
  }

  // A new frame: the arguments are the first locals.
  lemma {:induction false} RelParams(params: seq<string>, vs: seq<Value>, x: string)
    requires |params| == |vs|
    ensures x in ParamScope(params, vs) <==> x in params
    ensures x in params ==> vs[SlotOf(params, x).value] == ParamScope(params, vs)[x]
  {
    if params != [] {
      var n := |params| - 1;
      RelParams(params[..n], vs[..n], x);
      assert params == params[..n] + [params[n]];
      if x != params[n] && x in params[..n] {
        var i := SlotOf(params[..n], x).value;
        assert vs[..n][i] == vs[i];
      }
    }
  }

  lemma RelEntry(params: seq<string>, vs: seq<Value>, globals: map<string, Value>, out: seq<string>)
    requires |params| == |vs|
    ensures Rel(PushScope(State([ParamScope(params, vs)], globals, out)), 2, params, vs)
  {
    var s := State([ParamScope(params, vs)], globals, out);
    forall x ensures LocalAt(PushScope(s).scopes, params, vs, x) {
      RelParams(params, vs, x);
      assert PushScope(s).scopes[..1] == [ParamScope(params, vs)];
      if x in params {
        assert Innermost(PushScope(s).scopes, x) == Some(0);
      }
    }
  }
}
