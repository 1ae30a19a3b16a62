// What the supported fragment must leave out, with programs that show why.
module BytecodeLimits {
  import opened Wrappers
  import opened Syntax
  import opened Values
  import opened Semantics
  import opened BytecodeMachine
  import opened BytecodeGen
  import opened BytecodeRelation
  import opened BytecodeSteps
  import opened BytecodeSim
  import opened BytecodeTheorem
  import N = Interpreter

  // ---- a conditional as right operand ----

  // Branches that are one operand each.
  predicate OneOperand(b: Block) {
    b.stmts == [] && b.tail.Some? && OkOperand(b.tail.value)
  }

  predicate Choice(e: Expr) {
    e.If? && OkExpr(e.cond, true) && OneOperand(e.thn) && (e.els.Some? ==> OneOperand(e.els.value))
  }

  lemma OneOperandEval(c: Ctx, fuel: nat, b: Block, s: State)
    requires OneOperand(b)
    ensures var x := EvalExpr(c, fuel, b.tail.value, PushScope(s));
      EvalBlock(c, fuel, b, s) == Res(x.o, PopScope(x.st))
  {
    hide EvalExpr;
    assert EvalStmts(c, fuel, b.stmts, PushScope(s)) == Res(Norm(Null), PushScope(s));
  }

  // Such a branch leaves the stack as it was, plus its value.
  lemma OneOperandRuns(w: World, fuel: nat, b: Block, ch: Chunk, k: seq<Frame>, a: Config, d: nat, ip: nat, t: Tab, st: seq<Value>, s: State)
    requires OneOperand(b) && Pre(w, ch, k, a, GenInner(b, ip, t), d, ip, t.locals, st, s) && !EvalBlock(w.c, fuel, b, s).o.Fail?
    ensures Pushes(w, ch, k, a, EvalBlock(w.c, fuel, b, s), ip + |GenInner(b, ip, t).code|, st, s)
  {
    hide Linked, Rel, Segment, Reach, BytecodeRelation.Fits, Encode, GenExpr, EvalExpr, EvalBlock, GenInner;
    var x := b.tail.value;
    assert b == Block([], Some(x));
    TailGen(x, ip, t);
    OneOperandEval(w.c, fuel, b, s);
    RelEnter(s, d, t.locals, st);
    assert At(ch, k, ip, st, s) == At(ch, k, ip, st, PushScope(s));
    SimOperand(w, fuel, x, ch, k, a, d, ip, t, st, PushScope(s));
    assert PushScope(s).scopes[..|s.scopes|] == s.scopes;
  }

  lemma ElseRuns(w: World, fuel: nat, els: Option<Block>, ch: Chunk, k: seq<Frame>, a: Config, d: nat, ip: nat, t: Tab, st: seq<Value>, s: State)
    requires (els.Some? ==> OneOperand(els.value)) && Pre(w, ch, k, a, GenElse(els, ip, t), d, ip, t.locals, st, s)
    requires els.Some? ==> !EvalBlock(w.c, fuel, els.value, s).o.Fail?
    ensures var r := if els.Some? then EvalBlock(w.c, fuel, els.value, s) else Res(Norm(Null), s);
      Pushes(w, ch, k, a, r, ip + |GenElse(els, ip, t).code|, st, s)
  {
    hide Linked, Rel, Segment, Reach, BytecodeRelation.Fits, Encode, EvalBlock, GenInner;
    if els.Some? {
      OneOperandRuns(w, fuel, els.value, ch, k, a, d, ip, t, st, s);
    } else {
      GoPush(w.m, a, ch, k, ip, st, s, PushNull);
    }
  }

  // The condition stays under the value of the branch.
  lemma ChoiceRuns(w: World, fuel: nat, e: Expr, ch: Chunk, k: seq<Frame>, a: Config, d: nat, ip: nat, t: Tab, st: seq<Value>, s: State)
      returns (st1: seq<Value>)
    requires Choice(e) && Pre(w, ch, k, a, GenExpr(e, ip, t), d, ip, t.locals, st, s) && EvalExpr(w.c, fuel, e, s).o.Norm?
    ensures var c, r := EvalExpr(w.c, fuel, e.cond, s), EvalExpr(w.c, fuel, e, s);
      && c.o.Norm? && Grown(d, t.locals, st, st1, 1, true, c) && r.st.scopes == c.st.scopes
      && Reach(w.m, a, At(ch, k, ip + |GenExpr(e, ip, t).code|, st1 + [r.o.v], r.st))
  {
    hide Linked, Rel, Segment, Reach, Encode, GenExpr, GenInner, GenElse, EvalExpr, EvalBlock, Extends, BytecodeRelation.Fits, OneOperand, OkExpr;
    WorldFacts(w);
    IfGen(e, ip, t);
    IfEval(w.c, fuel, e, s);
    var x := GenExpr(e.cond, ip, t);
    var mid := ip + |x.code| + 3;
    var g := GenInner(e.thn, mid, x.tab);
    var late := mid + |g.code| + 3;
    var h := GenElse(e.els, late, g.tab);
    var end := late + |h.code|;
    IfLayout(ch.code, ip, x.code, late, g.code, end, h.code);
    ExtendsTrans(x.tab, g.tab, h.tab);
    FitsEarlier(w, ch, x.tab, h.tab);
    FitsEarlier(w, ch, g.tab, h.tab);
    FitsSmall(w, ch, h.tab);
    ExprLocals(e.cond, true, ip, t);
    OneOperandLocals(e.thn, mid, x.tab);
    st1 := SimExpr(w, fuel, e.cond, true, ch, k, a, d, ip, t, st, s);
    var c := EvalExpr(w.c, fuel, e.cond, s);
    Test(w, a, ch, k, ip + |x.code|, st1, c.st, w.c.prims.truthy(c.o.v), JumpIfFalse(late), late);
    if w.c.prims.truthy(c.o.v) {
      OneOperandRuns(w, fuel, e.thn, ch, k, a, d, mid, x.tab, st1, c.st);
      var r := EvalExpr(w.c, fuel, e, s);
      GoJump(w.m, a, ch, k, mid + |g.code|, st1 + [r.o.v], r.st, end);
    } else {
      ElseRuns(w, fuel, e.els, ch, k, a, d, late, g.tab, st1, c.st);
    }
  }

  lemma OneOperandLocals(b: Block, base: nat, t: Tab)
    requires OneOperand(b)
    ensures GenInner(b, base, t).tab.locals == t.locals
  {
    assert b == Block([], b.tail);
    TailGen(b.tail.value, base, t);
    OperandLocals(b.tail.value, base, t);
  }

  // An operator with a conditional on its right is applied to the condition instead of the left operand, whose value
  // stays below.  The stack is what the reading asks for if and only if that makes no difference.
  lemma RightBranch(w: World, fuel: nat, e: Expr, ch: Chunk, k: seq<Frame>, a: Config, d: nat, ip: nat, t: Tab, st: seq<Value>, s: State)
      returns (st': seq<Value>)
    requires e.Bin? && Supported(e.op) && OkOperand(e.left) && e.right.If? && Choice(e.right)
    requires Pre(w, ch, k, a, GenExpr(e, ip, t), d, ip, t.locals, st, s) && EvalExpr(w.c, fuel, e, s).o.Norm?
    ensures var r, x := EvalExpr(w.c, fuel, e, s), EvalExpr(w.c, fuel, e.left, s);
      var c, y := EvalExpr(w.c, fuel, e.right.cond, x.st), EvalExpr(w.c, fuel, e.right, x.st);
      && x.o.Norm? && c.o.Norm? && y.o.Norm? && r == Res(Norm(Apply(w.c.prims, e.op, x.o.v, y.o.v)), y.st)
      && Reach(w.m, a, At(ch, k, ip + |GenExpr(e, ip, t).code|, st', r.st))
      && |st'| >= |st| + 2 && TopOr(st') == Apply(w.c.prims, e.op, c.o.v, y.o.v)
      && (Grown(d, t.locals, st, st', 1, true, r)
          <==> Apply(w.c.prims, e.op, c.o.v, y.o.v) == Apply(w.c.prims, e.op, x.o.v, y.o.v))
  {
    hide Linked, Rel, Segment, Reach, BytecodeRelation.Fits, Encode, GenExpr, EvalExpr, Extends, Choice, Apply;
    WorldFacts(w);
    BinaryGen(e, ip, t);
    BinEval(w.c, fuel, e, s);
    var l := GenExpr(e.left, ip, t);
    var mid := ip + |l.code|;
    var g := GenExpr(e.right, mid, l.tab);
    SegSplit3(ch.code, ip, l.code, g.code, Encode(Binary(e.op)));
    FitsEarlier(w, ch, l.tab, g.tab);
    OperandLocals(e.left, ip, t);
    RelHeight(s, d, t.locals, st);
    SimOperand(w, fuel, e.left, ch, k, a, d, ip, t, st, s);
    var x := EvalExpr(w.c, fuel, e.left, s);
    RelState(s, x.st, d, t.locals, st);
    RelPush(x.st, d, t.locals, st, [x.o.v]);
    var y := EvalExpr(w.c, fuel, e.right, x.st);
    var st1 := ChoiceRuns(w, fuel, e.right, ch, k, a, d, mid, l.tab, st + [x.o.v], x.st);
    var c := EvalExpr(w.c, fuel, e.right.cond, x.st);
    var v := Apply(w.c.prims, e.op, c.o.v, y.o.v);
    Replaced(c.st, y.st, d, t.locals, st, st1, v);
    GoBinary(w.m, a, ch, k, mid + |g.code|, st1[..|st1|-1], c.o.v, y.o.v, y.st, e.op);
    st' := st1[..|st1|-1] + [v];
  }

  // ---- the smallest such program ----

  // output 1 op (if true { 2 } else { 3 })
  function BranchOperand(op: BinOp): Program {
    [Output(Bin(op, Lit(Int(1)), If(Lit(Bool(true)), Block([], Some(Lit(Int(2)))), Some(Block([], Some(Lit(Int(3))))))))]
  }

  function BranchCode(op: BinOp): seq<nat> {
    Encode(PushConst(0)) + Encode(PushTrue) + Encode(JumpIfFalse(13)) + Encode(PushConst(1)) + Encode(Jump(16))
    + Encode(PushConst(2)) + Encode(Binary(op)) + Encode(Print) + Encode(Stop)
  }

  lemma TailGen(x: Expr, base: nat, t: Tab)
    ensures GenInner(Block([], Some(x)), base, t) == GenExpr(x, base, t)
  {
    hide GenExpr;
    assert [] + GenExpr(x, base, t).code == GenExpr(x, base, t).code;
  }

  lemma OneStmt(st: Stmt, base: nat, t: Tab)
    ensures GenStmts([st], base, t) == GenStmt(st, base, t)
  {
    hide GenStmt;
    assert [st][1..] == [];
    assert GenStmt(st, base, t).code + [] == GenStmt(st, base, t).code;
  }

  lemma LitGen(v: Value, base: nat, t: Tab)
    ensures GenExpr(Lit(v), base, t) == GenConst(v, t)
  {
  }

  lemma BranchGenerated(op: BinOp)
    requires Supported(op)
    ensures GenProgram(BranchOperand(op)) == Out(BranchCode(op), Tab([], [], [Int(1), Int(2), Int(3)], map[]))
  {
    hide Encode, GenExpr, GenInner, GenStmts;
    var t0 := Tab([], [], [], map[]);
    var t1, t2 := t0.(constants := [Int(1)]), t0.(constants := [Int(1), Int(2)]);
    var t3 := t0.(constants := [Int(1), Int(2), Int(3)]);
    var st := BranchOperand(op)[0];
    var e := st.value;
    assert t0.constants + [Int(1)] == t1.constants && t1.constants + [Int(2)] == t2.constants;
    assert t2.constants + [Int(3)] == t3.constants;
    LitGen(Int(1), 0, t0);
    LitGen(Bool(true), 3, t1);
    TailGen(Lit(Int(2)), 7, t1);
    LitGen(Int(2), 7, t1);
    TailGen(Lit(Int(3)), 13, t2);
    LitGen(Int(3), 13, t2);
    IfGen(e.right, 3, t1);
    BinaryGen(e, 0, t0);
    OneStmt(st, 0, t0);
    BranchJoined(op);
  }

  lemma BranchJoined(op: BinOp)
    ensures Encode(PushConst(0))
          + (Encode(PushTrue) + Encode(JumpIfFalse(13)) + Encode(PushConst(1)) + Encode(Jump(16)) + Encode(PushConst(2)))
          + Encode(Binary(op)) + Encode(Print) + Encode(Stop) == BranchCode(op)
  {
    hide Encode;
  }

  // The interpreter applies the operator to both operands.
  lemma BranchOperandSource(op: BinOp, prims: Prims, v: Value)
    requires !Logical(op) && prims.bin(op, Int(1), Int(2)) == Some(v)
    ensures var r := N.Execute(prims, 0, BranchOperand(op)); r.o.Norm? && r.st.out == [prims.show(v)]
  {
    var p := BranchOperand(op);
    var c, s := N.Ctx(prims, map[], map[]), N.Initial();
    var e := p[0].value;
    assert p[..0] == [] && p[1..] == [];
    assert N.Code(p) == p;
    var b := e.right.thn;
    assert N.EvalStmts(c, 0, [], Null, N.PushScope(s)) == N.Res(Norm(Null), N.PushScope(s));
    assert N.EvalBody(c, 0, b, N.PushScope(s)) == N.Res(Norm(Int(2)), N.PushScope(s));
    assert N.PopScope(N.PushScope(s)) == s;
    assert N.EvalExpr(c, 0, e.right.cond, s) == N.Res(Norm(Bool(true)), s);
    assert N.EvalExpr(c, 0, e.right, s) == N.Res(Norm(Int(2)), s);
    assert N.EvalExpr(c, 0, e, s) == N.Res(Norm(v), s);
    assert N.EvalStmt(c, 0, p[0], s).st.out == [prims.show(v)];
  }

  // The interpreter applies the operator to both operands, the machine to the condition instead of the left one.
  lemma BranchOperandWrong(op: BinOp, prims: Prims)
    requires Supported(op) && prims.Valid()
    ensures !Logical(op) && prims.bin(op, Int(1), Int(2)).Some? ==>
      N.Execute(prims, 0, BranchOperand(op)).st.out == [prims.show(prims.bin(op, Int(1), Int(2)).value)]
    ensures var m := Image(prims, [], map[]);
      var ch := Chunk(GenProgram(BranchOperand(op)).code, GenProgram(BranchOperand(op)).tab.constants);
      Reach(m, Run(Frame(ch, 0, []), [], map[], []), Done(Int(1), map[], [prims.show(Apply(prims, op, Bool(true), Int(2)))]))
  {
    hide Encode, Reach, Segment, BranchCode, Apply, GenStmts, N.Execute;
    if !Logical(op) && prims.bin(op, Int(1), Int(2)).Some? {
      BranchOperandSource(op, prims, prims.bin(op, Int(1), Int(2)).value);
    }
    BranchGenerated(op);
    var m := Image(prims, [], map[]);
    var ch := Chunk(BranchCode(op), [Int(1), Int(2), Int(3)]);
    var s := State([map[]], map[], []);
    var a := At(ch, [], 0, [], s);
    BranchTaken(m, a, op, ch, s);
    BranchPrints(m, a, op, ch, s);
    assert s.out + [prims.show(Apply(prims, op, Bool(true), Int(2)))] == [prims.show(Apply(prims, op, Bool(true), Int(2)))];
  }

  lemma BranchPrints(m: Image, a: Config, op: BinOp, ch: Chunk, s: State)
    requires Supported(op) && ch.code == BranchCode(op)
    requires Reach(m, a, At(ch, [], 16, [Int(1)] + [Bool(true)] + [Int(2)], s))
    ensures Reach(m, a, Done(Int(1), s.globals, s.out + [m.prims.show(Apply(m.prims, op, Bool(true), Int(2)))]))
  {
    hide Encode, Reach, Segment, BranchCode, Apply;
    BranchLayout(op);
    GoBinary(m, a, ch, [], 16, [Int(1)], Bool(true), Int(2), s, op);
    var v := Apply(m.prims, op, Bool(true), Int(2));
    GoPrint(m, a, ch, [], 17, [Int(1)] + [v], s);
    var s' := s.(out := s.out + [m.prims.show(v)]);
    assert ([Int(1)] + [v])[..1] == [Int(1)];
    GoLeave(m, a, ch, [], 18, [Int(1)], s');
  }

  // Up to the operator: the condition is still between the operands.
  lemma BranchTaken(m: Image, a: Config, op: BinOp, ch: Chunk, s: State)
    requires m.prims.Valid() && ch == Chunk(BranchCode(op), [Int(1), Int(2), Int(3)]) && a == At(ch, [], 0, [], s)
    ensures Reach(m, a, At(ch, [], 16, [Int(1)] + [Bool(true)] + [Int(2)], s))
  {
    hide Encode, Reach, Segment, BranchCode;
    BranchLayout(op);
    ReachRefl(m, a);
    GoPush(m, a, ch, [], 0, [], s, PushConst(0));
    assert [] + [Int(1)] == [Int(1)];
    GoPush(m, a, ch, [], 3, [Int(1)], s, PushTrue);
    GoBranch(m, a, ch, [], 4, [Int(1)] + [Bool(true)], s, JumpIfFalse(13), 13);
    GoPush(m, a, ch, [], 7, [Int(1)] + [Bool(true)], s, PushConst(1));
    GoJump(m, a, ch, [], 10, [Int(1)] + [Bool(true)] + [Int(2)], s, 16);
  }

  lemma BranchLayout(op: BinOp)
    ensures var c := BranchCode(op);
      && Segment(c, 0, Encode(PushConst(0))) && Segment(c, 3, Encode(PushTrue)) && Segment(c, 4, Encode(JumpIfFalse(13)))
      && Segment(c, 7, Encode(PushConst(1))) && Segment(c, 10, Encode(Jump(16))) && Segment(c, 16, Encode(Binary(op)))
      && Segment(c, 17, Encode(Print)) && Segment(c, 18, Encode(Stop))
  {
    hide Encode;
  }

  // ---- break ----

  // while true { break }
  function BreakLoop(): Program {
    [While(Lit(Bool(true)), Block([Break], None))]
  }

  function BreakCode(): seq<nat> {
    Encode(PushTrue) + Encode(JumpIfFalse(7)) + Encode(Jump(0)) + Encode(Stop)
  }

  lemma BreakGenerated()
    ensures GenProgram(BreakLoop()) == Out(BreakCode(), Tab([], [], [], map[]))
  {
    hide Encode, GenExpr, GenStmts;
    var t := Tab([], [], [], map[]);
    var st := BreakLoop()[0];
    LitGen(Bool(true), 0, t);
    OneStmt(Break, 4, t);
    WhileGen(st, 0, t);
    OneStmt(st, 0, t);
    assert Encode(PushTrue) + Encode(JumpIfFalse(7)) + [] + Encode(Jump(0)) + Encode(Stop) == BreakCode();
  }

  // The interpreter leaves the loop at once; the machine never ends.
  lemma BreakIgnored(prims: Prims, n: nat)
    requires prims.Valid()
    ensures N.Execute(prims, 1, BreakLoop()) == N.Res(Norm(Null), N.Initial())
    ensures Steps(ImageOf(prims, BreakLoop()), n, Start(BreakLoop())).Run?
  {
    hide N.Execute, Steps;
    BreakGenerated();
    BreakLeaves(prims);
    BreakSpins(Image(prims, [], map[]), n, 0, []);
  }

  lemma BreakLeaves(prims: Prims)
    ensures N.Execute(prims, 1, BreakLoop()) == N.Res(Norm(Null), N.Initial())
  {
    var p := BreakLoop();
    var c := N.Ctx(prims, map[], map[]);
    assert p[..0] == [] && p[1..] == [];
    assert N.Code(p) == p;
    var s := N.Initial();
    assert N.EvalStmts(c, 1, [Break], Null, N.PushScope(s)) == N.Res(Brk, N.PushScope(s));
    assert N.PushScope(s).scopes[..|s.scopes|] == s.scopes;
    assert N.EvalBlock(c, 1, p[0].body, s) == N.Res(Brk, s);
    assert N.EvalExpr(c, 1, p[0].cond, s) == N.Res(Norm(Bool(true)), s);
    assert N.EvalStmt(c, 1, p[0], s) == N.Res(Norm(Null), s);
  }

  // At each of the three addresses of the loop the next step stays inside it.
  lemma {:induction false} BreakSpins(m: Image, n: nat, ip: nat, stack: seq<Value>)
    requires m.prims.Valid() && (ip == 0 || (ip == 1 && stack != [] && TopOr(stack) == Bool(true)) || ip == 4)
    ensures Steps(m, n, Run(Frame(Chunk(BreakCode(), []), ip, stack), [], map[], [])).Run?
    decreases n
  {
    hide Step, BreakCode;
    if n > 0 {
      BreakStep(m, ip, stack);
      if ip == 0 {
        BreakSpins(m, n - 1, 1, stack + [Bool(true)]);
      } else if ip == 1 {
        BreakSpins(m, n - 1, 4, stack);
      } else {
        BreakSpins(m, n - 1, 0, stack);
      }
    }
  }

  lemma BreakStep(m: Image, ip: nat, stack: seq<Value>)
    requires m.prims.Valid() && (ip == 0 || (ip == 1 && stack != [] && TopOr(stack) == Bool(true)) || ip == 4)
    ensures var ch := Chunk(BreakCode(), []);
      Step(m, Run(Frame(ch, ip, stack), [], map[], [])) ==
        if ip == 0 then Run(Frame(ch, 1, stack + [Bool(true)]), [], map[], [])
        else if ip == 1 then Run(Frame(ch, 4, stack), [], map[], [])
        else Run(Frame(ch, 0, stack), [], map[], [])
  {
    var c := BreakCode();
    BreakLayout();
    FetchEncoded(c, ip, if ip == 0 then PushTrue else if ip == 1 then JumpIfFalse(7) else Jump(0));
  }

  lemma BreakLayout()
    ensures var c := BreakCode();
      Segment(c, 0, Encode(PushTrue)) && Segment(c, 1, Encode(JumpIfFalse(7))) && Segment(c, 4, Encode(Jump(0)))
  {
    hide Encode;
  }

  // ---- the end of a body ----

  // A body without tail that does not end in `return` yields null exactly when its last byte is not the
  // return opcode or the junk on top of the stack happens to be null.
  lemma EndOfBody(m: Image, a: Config, ch: Chunk, k: seq<Frame>, b: Block, inner: seq<nat>, st: seq<Value>, s: State)
    requires b.tail.None? && ch.code == inner + GenEnd(b, inner) && Reach(m, a, At(ch, k, |inner|, st, s))
    ensures var v := if inner != [] && inner[|inner|-1] == RETURN then TopOr(st) else Null;
      Reach(m, a, Resume(v, k, s.globals, s.out))
  {
    hide Reach, Encode;
    if inner != [] && inner[|inner|-1] == RETURN {
      assert ch.code == inner;
      ReachStep(m, a, At(ch, k, |inner|, st, s));
    } else {
      assert Segment(ch.code, |inner|, Encode(PushNull) + Encode(Leave));
      SegSplit(ch.code, |inner|, Encode(PushNull), Encode(Leave));
      GoPush(m, a, ch, k, |inner|, st, s, PushNull);
      GoLeave(m, a, ch, k, |inner| + 1, st + [Null], s);
    }
  }

  // ---- operators without value ----

  // output 1 / 0
  function Division(): Program {
    [Output(Bin(Div, Lit(Int(1)), Lit(Int(0))))]
  }

  // An error in the interpreter; the machine goes on with null.
  lemma FailingOperator(prims: Prims) returns (v: Value)
    requires prims.Valid() && prims.bin(Div, Int(1), Int(0)).None?
    ensures N.Execute(prims, 0, Division()).o.Fail?
    ensures Reach(ImageOf(prims, Division()), Start(Division()), Done(v, map[], [prims.show(Null)]))
  {
    hide Reach, GenProgram, Supports, EvalStmts, N.Execute;
    DivisionSource(prims);
    DivisionReads(prims);
    DivisionCompiles();
    v := ByteCodeRuns(prims, Division(), 0);
  }

  lemma DivisionSource(prims: Prims)
    requires prims.bin(Div, Int(1), Int(0)).None?
    ensures N.Execute(prims, 0, Division()).o.Fail?
  {
    var p := Division();
    assert p[..0] == [] && p[1..] == [];
    assert Functions(p) == map[] && N.Code(p) == p;
    var c := N.Ctx(prims, map[], map[]);
    assert N.EvalExpr(c, 0, p[0].value, N.Initial()).o.Fail?;
    assert N.EvalStmt(c, 0, p[0], N.Initial()).o.Fail?;
  }

  lemma DivisionReads(prims: Prims)
    requires prims.bin(Div, Int(1), Int(0)).None?
    ensures var r := EvalStmts(Context(prims, Division()), 0, Division(), Initial());
      r.o.Norm? && r.st.globals == map[] && r.st.out == [prims.show(Null)]
  {
    var p := Division();
    assert p[1..] == [];
    var c := Context(prims, p);
    assert EvalExpr(c, 0, p[0].value, Initial()) == Res(Norm(Null), Initial());
    assert EvalStmt(c, 0, p[0], Initial()).st.out == [] + [prims.show(Null)];
  }

  lemma OneConstant(n: int, base: nat, t: Tab)
    ensures GenExpr(Lit(Int(n)), base, t) == Out(Encode(PushConst(|t.constants|)), t.(constants := t.constants + [Int(n)]))
  {
  }

  lemma PrintGen(e: Expr, base: nat, t: Tab)
    ensures var x := GenExpr(e, base, t); GenStmt(Output(e), base, t) == Out(x.code + Encode(Print), x.tab)
  {
    hide GenExpr, Encode;
  }

  lemma Sizes(n: nat)
    ensures |Encode(PushConst(n))| == 3 && |Encode(Print)| == 1 && |Encode(Stop)| == 1 && |Encode(Binary(Div))| == 1
  {
  }

  lemma DivisionCompiles()
    ensures Compilable(Division())
  {
    hide Encode, GenExpr, GenStmt;
    var p, t := Division(), EmptyTab();
    assert p[1..] == [];
    var e := p[0].value;
    BinaryGen(e, 0, t);
    OneConstant(1, 0, t);
    var t1 := t.(constants := t.constants + [Int(1)]);
    Sizes(0);
    Sizes(1);
    OneConstant(0, 3, t1);
    PrintGen(e, 0, t);
    StmtsGen(p, 0, t);
    StmtsGen(p[1..], |GenStmt(p[0], 0, t).code|, GenStmt(p[0], 0, t).tab);
  }
}
