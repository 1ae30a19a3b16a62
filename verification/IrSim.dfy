// Meaning preservation of the AST -> IR compiler: whatever the
// semantics does with a fragment, the machine does with its code.
module IrSim {
  import opened Wrappers
  import opened Syntax
  import opened Values
  import opened Semantics
  import opened IrMachine
  import opened IrCodegen
  import opened Pools
  import opened IrBrackets
  import opened IrRelation
  import opened IrSteps
  import opened IrControl

  // ---- variables ----

  lemma SimRead(w: World, name: string, env: Env, s: State, a: Config)
    requires a.Run? && Linked(w)
    requires At(w, a.frame, GenRead(w.u, name, env).code) && Fits(w, a.frame, GenRead(w.u, name, env).env)
    requires Rel(w, s, env.scopes, MemOf(a)) && ReadVar(w.c, name, s).o.Norm?
    ensures Runs(w, a, Push(a, ReadVar(w.c, name, s).o.v))
  {
    assert LinkedAt(w, name);
    hide Linked, LinkedAt, Grows;
    VisibleInnermost(s, env, name);
    Fetch(w, a.frame, GenRead(w.u, name, env).code, 0);
    if Innermost(env.scopes, name).None? {
      InternFinal(env.globals, w.m.globals, name);
    }
    RunsRefl(w, a);
    DoPush(w, a, a, GenRead(w.u, name, env).code[0]);
  }

  lemma SimWrite(w: World, name: string, env: Env, s: State, a: Config, b: Config) returns (m: Mem)
    requires b.Run? && b.frame.stack != [] && w.c.mode.Ir? && Good(env) && Runs(w, a, b)
    requires At(w, b.frame, GenWrite(w.u, name, env).code) && Fits(w, b.frame, GenWrite(w.u, name, env).env)
    requires Rel(w, s, env.scopes, MemOf(b)) && WriteVar(w.c, name, Top(b), s).o.Norm?
    ensures |m.locals| == |b.frame.locals| && Rel(w, WriteVar(w.c, name, Top(b), s).st, env.scopes, m)
    ensures Runs(w, a, Next(Popped(b), 0, [], m))
  {
    hide Good, Segment, Runs;
    var v := Top(b);
    VisibleInnermost(s, env, name);
    Fetch(w, b.frame, GenWrite(w.u, name, env).code, 0);
    match Innermost(s.scopes, name)
    case Some(i) =>
      WriteKeeps(s.scopes, env, b.frame.locals, i, name, v);
      m := MemOf(b).(locals := b.frame.locals[env.scopes[i][name] := v]);
      DoLocalSet(w, a, b, env.scopes[i][name]);
      assert Stored(b, env.scopes[i][name]) == Next(Popped(b), 0, [], m);
    case None =>
      m := GlobalWrite(w, name, env, s, a, b);
  }

  lemma GlobalWrite(w: World, name: string, env: Env, s: State, a: Config, b: Config) returns (m: Mem)
    requires b.Run? && b.frame.stack != [] && Runs(w, a, b) && Rel(w, s, env.scopes, MemOf(b))
    requires Interned(env.globals, name) <= w.m.globals && Op(w, b.frame, GlobalSet(InternIndex(env.globals, name)))
    ensures |m.locals| == |b.frame.locals| && Rel(w, s.(globals := s.globals[name := Top(b)]), env.scopes, m)
    ensures Runs(w, a, Next(Popped(b), 0, [], m))
  {
    hide ScopesRel, GlobalsRel, Runs, Visible;
    var v := Top(b);
    InternFinal(env.globals, w.m.globals, name);
    GlobalKeeps(w.m, s.globals, b.globals, name, v);
    GlobalsSize(w.m, s.globals, b.globals);
    m := MemOf(b).(globals := b.globals[InternIndex(env.globals, name) := v]);
    DoGlobalSet(w, a, b, InternIndex(env.globals, name));
    assert Run(Popped(b).frame, b.callers, m.globals, b.out) == Next(Popped(b), 0, [], m);
  }

  lemma SimBind(w: World, name: string, env: Env, s: State, a: Config, b: Config) returns (m: Mem)
    requires b.Run? && b.frame.stack != [] && w.c.mode.Ir? && w.c.top == w.u.top && env.scopes != [] && Good(env) && Runs(w, a, b)
    requires At(w, b.frame, GenBind(w.u, name, env).code) && Fits(w, b.frame, GenBind(w.u, name, env).env)
    requires Rel(w, s, env.scopes, MemOf(b)) && BindVar(w.c, name, Top(b), s).o.Norm?
    ensures |m.locals| == |b.frame.locals| && Rel(w, BindVar(w.c, name, Top(b), s).st, GenBind(w.u, name, env).env.scopes, m)
    ensures Runs(w, a, Next(Popped(b), |GenBind(w.u, name, env).code| - 1, [], m))
  {
    hide Good, ScopesRel, GlobalsRel, Segment, Runs, Visible;
    var v := Top(b);
    var code := GenBind(w.u, name, env).code;
    var slot := |env.locals|;
    BindKeeps(s.scopes, env, b.frame.locals, name, v);
    m := MemOf(b).(locals := b.frame.locals[slot := v]);
    Fetch(w, b.frame, code, 0);
    DoLocalSet(w, a, b, slot);
    var b1 := Stored(b, slot);
    assert b1 == Next(Popped(b), 0, [], m);
    if w.u.top {
      InternFinal(env.globals, w.m.globals, name);
      GlobalKeeps(w.m, s.globals, b.globals, name, v);
      GlobalsSize(w.m, s.globals, b.globals);
      m := m.(globals := b.globals[InternIndex(env.globals, name) := v]);
      Fetch(w, b.frame, code, 1);
      DoPush(w, a, b1, LocalGet(slot));
      Fetch(w, b.frame, code, 2);
      DoGlobalSet(w, a, Push(b1, v), InternIndex(env.globals, name));
      assert Run(Popped(Push(b1, v)).frame, b.callers, m.globals, b.out) == Next(Popped(b), 2, [], m);
    }
  }

  // ---- expressions ----

  function Vals(o: Outcome): seq<Value> {
    if o.Norm? then [o.v] else []
  }

  ghost predicate Ready(w: World, k: Option<nat>, env: Env, s: State, a: Config, out: Option<Emitted>) {
    && a.Run? && Linked(w) && w.c.mode.Ir? && w.c.prims.Valid() && env.scopes != [] && Good(env) && LabelsOk(a.frame, k)
    && out.Some? && At(w, a.frame, out.value.code) && Fits(w, a.frame, out.value.env)
    && Rel(w, s, env.scopes, MemOf(a))
  }

  // The machine does what `r` says and keeps the correspondence.
  ghost predicate Simulates(w: World, k: Option<nat>, env: Env, a: Config, n: nat, r: Res, vals: seq<Value>, m: Mem) {
    Does(w, k, a, n, r.o, vals, m) && Rel(w, r.st, env.scopes, m)
  }

  lemma FitsEarlier(w: World, f: Frame, a: Env, b: Env)
    requires Grows(a, b) && Fits(w, f, b)
    ensures Fits(w, f, a)
  {
  }

  // A sub-fragment is ready at `b` once the machine has got there with the right memory.
  lemma ReadyAt(w: World, k: Option<nat>, env: Env, env1: Env, s1: State, b: Config, out: Emitted, f: Frame, final: Env)
    requires b.Run? && Linked(w) && w.c.mode.Ir? && w.c.prims.Valid() && LabelsOk(b.frame, k)
    requires Fits(w, f, final) && |b.frame.locals| == |f.locals| && Grows(out.env, final) && At(w, b.frame, out.code)
    requires env1.scopes != [] && Good(env1) && Visible(env1.scopes) == Visible(env.scopes)
    requires Rel(w, s1, env.scopes, MemOf(b))
    ensures Ready(w, k, env1, s1, b, Some(out))
  {
    hide Linked, Good, ScopesRel, GlobalsRel, Segment, LabelsOk, Visible;
    FitsEarlier(w, f, out.env, final);
  }

  lemma ReadyNext(w: World, k: Option<nat>, env: Env, env1: Env, s1: State, a: Config, n: nat, vals: seq<Value>, m: Mem,
                  out: Emitted, final: Env)
    requires a.Run? && Linked(w) && w.c.mode.Ir? && w.c.prims.Valid() && LabelsOk(a.frame, k) && Fits(w, a.frame, final) && |m.locals| == |a.frame.locals|
    requires env1.scopes != [] && Good(env1) && Visible(env1.scopes) == Visible(env.scopes)
    requires Rel(w, s1, env.scopes, m)
    requires Grows(out.env, final) && At(w, a.frame.(pc := a.frame.pc + n), out.code)
    ensures Ready(w, k, env1, s1, Next(a, n, vals, m), Some(out))
  {
    hide Linked, Good, ScopesRel, GlobalsRel, Segment, Visible;
    ReadyAt(w, k, env, env1, s1, Next(a, n, vals, m), out, a.frame, final);
  }

  // What the code generator and the semantics do with a strict operator.
  lemma ArithParts(w: World, fuel: nat, e: Expr, k: Option<nat>, env: Env, s: State)
    requires e.Bin? && !e.op.And? && !e.op.Or? && env.scopes != [] && GenExpr(w.u, e, k, env).Some? && w.c.mode.Ir?
    ensures GenExpr(w.u, e.left, k, env).Some?
    ensures var l := GenExpr(w.u, e.left, k, env).value;
      && l.env.scopes != [] && GenExpr(w.u, e.right, k, l.env).Some?
      && var r := GenExpr(w.u, e.right, k, l.env).value;
      && var o := GenOp(e.op, r.env);
      && GenExpr(w.u, e, k, env) == Some(Emitted(l.code + r.code + o.code, o.env))
      && Grows(l.env, o.env) && Grows(r.env, o.env)
    ensures var x := EvalExpr(w.c, fuel, e.left, s);
      EvalExpr(w.c, fuel, e, s) ==
        if !x.o.Norm? then x
        else
          var y := EvalExpr(w.c, fuel, e.right, x.st);
          if !y.o.Norm? then y else Lift(w.c, w.c.prims.bin(e.op, x.o.v, y.o.v), y.st)
  {
  }

  lemma {:induction false} SimArith(w: World, fuel: nat, e: Expr, k: Option<nat>, env: Env, s: State, a: Config) returns (m: Mem)
    requires e.Bin? && !e.op.And? && !e.op.Or? && env.scopes != []
    requires Ready(w, k, env, s, a, GenExpr(w.u, e, k, env)) && !EvalExpr(w.c, fuel, e, s).o.Fail?
    ensures var r := EvalExpr(w.c, fuel, e, s);
      Simulates(w, k, env, a, |GenExpr(w.u, e, k, env).value.code|, r, Vals(r.o), m)
    decreases fuel, e, 1
  {
    hide Linked, Good, ScopesRel, GlobalsRel, Segment, Runs, GenExpr, EvalExpr, Grows, Visible, LabelsOk;
    ArithParts(w, fuel, e, k, env, s);
    var f := a.frame;
    var l := GenExpr(w.u, e.left, k, env).value;
    var r := GenExpr(w.u, e.right, k, l.env).value;
    var o := GenOp(e.op, r.env);
    Split3(w, f, l.code, r.code, o.code);
    m := SimExpr(w, fuel, e.left, k, env, s, a);
    var x := EvalExpr(w.c, fuel, e.left, s);
    if x.o.Norm? {
      var m1 := m;
      ReadyNext(w, k, env, l.env, x.st, a, |l.code|, [x.o.v], m1, r, o.env);
      m := SimExpr(w, fuel, e.right, k, l.env, x.st, Next(a, |l.code|, [x.o.v], m1));
      var y := EvalExpr(w.c, fuel, e.right, x.st);
      InSequence(w, k, a, |l.code|, x.o, [x.o.v], m1, |r.code|, y.o, Vals(y.o), m);
      if y.o.Norm? {
        ApplyOp(w, a, |l.code| + |r.code|, e.op, r.env.strings, x.o.v, y.o.v, m);
      }
    }
  }

  lemma ApplyOp(w: World, a: Config, n: nat, op: BinOp, strings: seq<string>, x: Value, y: Value, m: Mem)
    requires a.Run? && !op.And? && !op.Or? && Runs(w, a, Next(a, n, [x] + [y], m)) && w.c.prims.bin(op, x, y).Some?
    requires Interned(strings, OpName(op)) <= w.m.strings
    requires At(w, a.frame.(pc := a.frame.pc + n), [RuntimeCall(InternIndex(strings, OpName(op)), 2)])
    ensures Runs(w, a, Next(a, n + 1, [w.c.prims.bin(op, x, y).value], m))
  {
    hide Runs, Segment;
    var b := Next(a, n, [x] + [y], m);
    Fetch(w, a.frame.(pc := a.frame.pc + n), [RuntimeCall(InternIndex(strings, OpName(op)), 2)], 0);
    InternFinal(strings, w.m.strings, OpName(op));
    DoBinOp(w, a, b, op, InternIndex(strings, OpName(op)));
    assert b.frame.stack[..|b.frame.stack|-2] == a.frame.stack;
  }

  // ---- && and || ----

  // Offsets of the pieces of a short-circuit operator, `n` being the length of the left code.
  lemma LogicLayout(w: World, a: Config, l: seq<Instr>, op: BinOp, t: nat, r: seq<Instr>)
    requires a.Run? && At(w, a.frame, l + [LocalSet(t)] + ShortCircuit(op, t, r) + [LocalGet(t)])
    ensures At(w, a.frame, l) && OpAt(w, a, |l|, LocalSet(t))
    ensures At(w, a.frame.(pc := a.frame.pc + |l| + 1), [OpenBlock] + ([OpenBlock] + Guarded(op, t, r) + [End]) + [End])
    ensures At(w, a.frame.(pc := a.frame.pc + |l| + 2), [OpenBlock] + Guarded(op, t, r) + [End])
    ensures OpAt(w, a, |l| + 3, LocalGet(t))
    ensures forall i | 0 <= i < |SkipTest(op)| :: OpAt(w, a, |l| + 4 + i, SkipTest(op)[i])
    ensures At(w, a.frame.(pc := a.frame.pc + |l| + 4 + |SkipTest(op)|), r)
    ensures var q := |l| + 4 + |SkipTest(op)| + |r|;
      OpAt(w, a, q, LocalSet(t)) && OpAt(w, a, q + 1, End) && OpAt(w, a, q + 2, End) && OpAt(w, a, q + 3, LocalGet(t))
  {
    hide Segment, ShortCircuit, SkipTest, Guarded;
    var whole := w.m.functions[a.frame.fn].code;
    var p1 := a.frame.pc + |l| + 1;
    SegSplit(whole, a.frame.pc, l + [LocalSet(t)] + ShortCircuit(op, t, r), [LocalGet(t)]);
    SegSplit(whole, a.frame.pc, l + [LocalSet(t)], ShortCircuit(op, t, r));
    SegSplit(whole, a.frame.pc, l, [LocalSet(t)]);
    SegAt(whole, a.frame.pc + |l|, [LocalSet(t)], 0);
    SegAt(whole, p1 + |ShortCircuit(op, t, r)|, [LocalGet(t)], 0);
    ShortCircuitLayout(whole, p1, op, t, r);
    GuardedLayout(whole, p1 + 2, op, t, r);
    GuardedLength(op, t, r);
  }

  lemma GuardedLength(op: BinOp, t: nat, r: seq<Instr>)
    ensures |Guarded(op, t, r)| == 2 + |SkipTest(op)| + |r|
    ensures |ShortCircuit(op, t, r)| == 6 + |SkipTest(op)| + |r|
  {
  }

  lemma ShortCircuitLayout(whole: seq<Instr>, p: nat, op: BinOp, t: nat, r: seq<Instr>)
    requires Segment(whole, p, ShortCircuit(op, t, r))
    ensures var g := Guarded(op, t, r);
      && Segment(whole, p, [OpenBlock] + ([OpenBlock] + g + [End]) + [End])
      && Segment(whole, p + 1, [OpenBlock] + g + [End]) && Segment(whole, p + 2, g)
      && whole[p + 2 + |g|] == End && whole[p + 3 + |g|] == End
  {
    hide Segment;
    var g := Guarded(op, t, r);
    assert ShortCircuit(op, t, r) == [OpenBlock] + ([OpenBlock] + g + [End]) + [End];
    SegSplit(whole, p, [OpenBlock] + ([OpenBlock] + g + [End]), [End]);
    SegAt(whole, p + 3 + |g|, [End], 0);
    SegSplit(whole, p, [OpenBlock], [OpenBlock] + g + [End]);
    SegSplit(whole, p + 1, [OpenBlock] + g, [End]);
    SegAt(whole, p + 2 + |g|, [End], 0);
    SegSplit(whole, p + 1, [OpenBlock], g);
  }

  lemma GuardedLayout(whole: seq<Instr>, p: nat, op: BinOp, t: nat, r: seq<Instr>)
    requires Segment(whole, p, Guarded(op, t, r))
    ensures p + |Guarded(op, t, r)| <= |whole| && whole[p] == LocalGet(t)
    ensures forall i | 0 <= i < |SkipTest(op)| :: whole[p + 1 + i] == SkipTest(op)[i]
    ensures Segment(whole, p + 1 + |SkipTest(op)|, r)
    ensures whole[p + 1 + |SkipTest(op)| + |r|] == LocalSet(t)
  {
    var test := SkipTest(op);
    SegAt(whole, p, Guarded(op, t, r), 0);
    SegAt(whole, p, Guarded(op, t, r), 1 + |test| + |r|);
    forall i | 0 <= i < |test| ensures whole[p + 1 + i] == test[i] {
      SegAt(whole, p, Guarded(op, t, r), 1 + i);
    }
    SegSplit(whole, p, [LocalGet(t)] + test + r, [LocalSet(t)]);
    SegSplit(whole, p, [LocalGet(t)] + test, r);
  }

  lemma LogicLength(l: seq<Instr>, op: BinOp, t: nat, r: seq<Instr>)
    ensures |l + [LocalSet(t)] + ShortCircuit(op, t, r) + [LocalGet(t)]| == |l| + 8 + |SkipTest(op)| + |r|
  {
  }

  // Whether the right operand is skipped.
  predicate Skips(p: Prims, op: BinOp, v: Value) {
    if op.And? then !p.truthy(v) else p.truthy(v)
  }

  // From the left value into both blocks.
  lemma LogicEnter(w: World, a: Config, l: seq<Instr>, op: BinOp, t: nat, r: seq<Instr>, v: Value, m: Mem)
      returns (ls: seq<Label>, m': Mem)
    requires a.Run? && At(w, a.frame, l + [LocalSet(t)] + ShortCircuit(op, t, r) + [LocalGet(t)])
    requires Balanced(r) && t < |m.locals| && Runs(w, a, Within(a, |l|, [], [v], m))
    ensures m' == m.(locals := m.locals[t := v])
    ensures |ls| == 2 && ls[1] == Label(a.frame.pc + |l| + 6 + |SkipTest(op)| + |r|, |a.frame.stack|, 0)
    ensures Runs(w, a, Within(a, |l| + 4, ls, [v], m'))
  {
    hide Runs, At, Balanced;
    LogicLayout(w, a, l, op, t, r);
    ShortCircuitBalanced(op, t, r);
    var n := |l|;
    var g := Guarded(op, t, r);
    m' := m.(locals := m.locals[t := v]);
    assert [] + [v] == [v];
    GoLocalSet(w, a, n, [], [], v, m, t);
    assert a.frame.stack + [] == a.frame.stack;
    var outer := Label(a.frame.pc + n + 1 + |[OpenBlock] + g + [End]| + 2, |a.frame.stack|, 0);
    var inner := Label(a.frame.pc + n + 2 + |g| + 2, |a.frame.stack|, 0);
    GoBlock(w, a, n + 1, [], [], m', [OpenBlock] + g + [End]);
    assert [] + [outer] == [outer];
    GoBlock(w, a, n + 2, [outer], [], m', g);
    ls := [outer] + [inner];
    GoPush(w, a, n + 3, ls, [], m', LocalGet(t));
  }

  // From the stored left value to the decision.
  lemma LogicTest(w: World, a: Config, l: seq<Instr>, op: BinOp, t: nat, r: seq<Instr>, ls: seq<Label>, v: Value, m: Mem)
    requires a.Run? && At(w, a.frame, l + [LocalSet(t)] + ShortCircuit(op, t, r) + [LocalGet(t)])
    requires (op.And? || op.Or?) && w.c.prims.Valid()
    requires |ls| == 2 && ls[1] == Label(a.frame.pc + |l| + 6 + |SkipTest(op)| + |r|, |a.frame.stack|, 0)
    requires Runs(w, a, Within(a, |l| + 4, ls, [v], m))
    ensures Runs(w, a,
      if Skips(w.c.prims, op, v) then Within(a, |l| + 6 + |SkipTest(op)| + |r|, [ls[0]], [], m)
      else Within(a, |l| + 4 + |SkipTest(op)|, ls, [], m))
  {
    hide Runs, At, Within;
    LogicLayout(w, a, l, op, t, r);
    var n := |l|;
    var to := n + 6 + |SkipTest(op)| + |r|;
    assert [] + [v] == [v];
    assert OpAt(w, a, n + 4 + (|SkipTest(op)| - 1), SkipTest(op)[|SkipTest(op)| - 1]);
    assert ls[..1] == [ls[0]];
    if op.And? {
      assert OpAt(w, a, n + 4 + 0, SkipTest(op)[0]);
      GoNot(w, a, n + 4, ls, [], v, m);
      GoBrIf(w, a, n + 5, ls, [], Bool(!w.c.prims.truthy(v)), m, 0, to);
    } else {
      GoBrIf(w, a, n + 4, ls, [], v, m, 0, to);
    }
  }

  // From the end of the inner block to the value.
  lemma LogicEnd(w: World, a: Config, l: seq<Instr>, op: BinOp, t: nat, r: seq<Instr>, ls: seq<Label>, m: Mem)
    requires a.Run? && At(w, a.frame, l + [LocalSet(t)] + ShortCircuit(op, t, r) + [LocalGet(t)])
    requires |ls| == 2 && t < |m.locals|
    requires Runs(w, a, Within(a, |l| + 6 + |SkipTest(op)| + |r|, [ls[0]], [], m))
    ensures Runs(w, a, Next(a, |l| + 8 + |SkipTest(op)| + |r|, [m.locals[t]], m))
  {
    hide Runs, At;
    LogicLayout(w, a, l, op, t, r);
    var q := |l| + 4 + |SkipTest(op)| + |r|;
    assert [] + [ls[0]] == [ls[0]];
    GoEnd(w, a, q + 2, [], ls[0], [], m);
    GoPush(w, a, q + 3, [], [], m, LocalGet(t));
    assert [] + [m.locals[t]] == [m.locals[t]];
    WithinNext(a, q + 4, [m.locals[t]], m);
  }

  lemma LogicParts(w: World, e: Expr, k: Option<nat>, env: Env)
    requires e.Bin? && (e.op.And? || e.op.Or?) && env.scopes != [] && GenExpr(w.u, e, k, env).Some? && Good(env)
    ensures GenExpr(w.u, e.left, k, env).Some?
    ensures var l := GenExpr(w.u, e.left, k, env).value;
      && l.env.scopes != []
      && var mid := WithTemp(l.env);
      && mid.scopes != [] && Good(mid) && Visible(mid.scopes) == Visible(env.scopes)
      && var t := TempSlot(mid);
      && t < |mid.locals| && GenExpr(w.u, e.right, Deeper(k, 2), mid).Some?
      && var r := GenExpr(w.u, e.right, Deeper(k, 2), mid).value;
      && GenExpr(w.u, e, k, env) == Some(Emitted(l.code + [LocalSet(t)] + ShortCircuit(e.op, t, r.code) + [LocalGet(t)], r.env))
      && Grows(l.env, r.env) && Grows(mid, r.env) && Grows(r.env, r.env)
  {
    hide EvalExpr, ShortCircuit;
  }

  lemma LogicEval(c: Ctx, fuel: nat, e: Expr, s: State)
    requires e.Bin? && (e.op.And? || e.op.Or?) && c.mode.Ir?
    ensures var x := EvalExpr(c, fuel, e.left, s);
      EvalExpr(c, fuel, e, s) == if !x.o.Norm? || Skips(c.prims, e.op, x.o.v) then x else EvalExpr(c, fuel, e.right, x.st)
  {
  }

  // Storing in the scratch local keeps the correspondence.
  lemma TempRel(w: World, s: State, scopes: seq<Slots>, mid: Env, m: Mem, v: Value)
    requires Good(mid) && Visible(mid.scopes) == Visible(scopes) && Rel(w, s, scopes, m)
    requires Innermost(mid.scopes, TEMP).Some? && TempSlot(mid) < |m.locals|
    ensures Rel(w, s, scopes, m.(locals := m.locals[TempSlot(mid) := v]))
  {
    hide Good, ScopesRel, GlobalsRel, Visible;
    TempKeeps(s.scopes, mid, m.locals, v);
  }

  lemma {:induction false} SimLogic(w: World, fuel: nat, e: Expr, k: Option<nat>, env: Env, s: State, a: Config) returns (m: Mem)
    requires e.Bin? && (e.op.And? || e.op.Or?) && env.scopes != []
    requires Ready(w, k, env, s, a, GenExpr(w.u, e, k, env)) && !EvalExpr(w.c, fuel, e, s).o.Fail?
    ensures var r := EvalExpr(w.c, fuel, e, s);
      Simulates(w, k, env, a, |GenExpr(w.u, e, k, env).value.code|, r, Vals(r.o), m)
    decreases fuel, e, 1
  {
    hide Rel, Innermost, SkipTest, TempSlot, TagOf, Push, Pop1, Pop2, BranchTo, CanBranch, Linked, Good, ScopesRel, GlobalsRel, Segment, Runs, GenExpr, EvalExpr, Grows, Visible, LabelsOk, At, Balanced, ShortCircuit, Does, WithTemp;
    LogicParts(w, e, k, env);
    LogicEval(w.c, fuel, e, s);
    var l := GenExpr(w.u, e.left, k, env).value;
    var mid := WithTemp(l.env);
    var t := TempSlot(mid);
    var r := GenExpr(w.u, e.right, Deeper(k, 2), mid).value;
    LogicLayout(w, a, l.code, e.op, t, r.code);
    LogicLength(l.code, e.op, t, r.code);
    assert |GenExpr(w.u, e, k, env).value.code| == |l.code| + 8 + |SkipTest(e.op)| + |r.code|;
    FitsEarlier(w, a.frame, l.env, r.env);
    FitsEarlier(w, a.frame, mid, r.env);
    m := SimExpr(w, fuel, e.left, k, env, s, a);
    var x := EvalExpr(w.c, fuel, e.left, s);
    if x.o.Norm? {
      DoesNorm(w, k, a, |l.code|, x.o, [x.o.v], m);
      WithinNext(a, |l.code|, [x.o.v], m);
      m := LogicDecide(w, fuel, e, k, env, mid, x.st, a, l.code, r, x.o.v, m);
      assert EvalExpr(w.c, fuel, e, s)
          == if Skips(w.c.prims, e.op, x.o.v) then Res(Norm(x.o.v), x.st) else EvalExpr(w.c, fuel, e.right, x.st);
    } else {
      Abrupt(w, k, a, |l.code|, |GenExpr(w.u, e, k, env).value.code|, x.o, [], [], m);
    }
  }

  // From the left value on.
  lemma {:induction false} LogicDecide(w: World, fuel: nat, e: Expr, k: Option<nat>, env: Env, mid: Env, s: State, a: Config,
                                       l: seq<Instr>, r: Emitted, v: Value, m0: Mem) returns (m: Mem)
    requires e.Bin? && (e.op.And? || e.op.Or?) && a.Run? && Linked(w) && LabelsOk(a.frame, k) && w.c.mode.Ir? && w.c.prims.Valid()
    requires mid.scopes != [] && Good(mid) && Visible(mid.scopes) == Visible(env.scopes) && Grows(r.env, r.env)
    requires Innermost(mid.scopes, TEMP).Some? && TempSlot(mid) < |a.frame.locals|
    requires GenExpr(w.u, e.right, Deeper(k, 2), mid) == Some(r)
    requires !Skips(w.c.prims, e.op, v) ==> !EvalExpr(w.c, fuel, e.right, s).o.Fail?
    requires At(w, a.frame, l + [LocalSet(TempSlot(mid))] + ShortCircuit(e.op, TempSlot(mid), r.code) + [LocalGet(TempSlot(mid))])
    requires Fits(w, a.frame, r.env) && |m0.locals| == |a.frame.locals|
    requires Rel(w, s, env.scopes, m0) && Runs(w, a, Within(a, |l|, [], [v], m0))
    ensures var y := if Skips(w.c.prims, e.op, v) then Res(Norm(v), s) else EvalExpr(w.c, fuel, e.right, s);
      Simulates(w, k, env, a, |l| + 8 + |SkipTest(e.op)| + |r.code|, y, Vals(y.o), m)
    decreases fuel, e, 0, 1
  {
    hide Linked, Good, ScopesRel, GlobalsRel, Segment, Runs, GenExpr, EvalExpr, Grows, Visible, LabelsOk, At, Balanced, ShortCircuit;
    var t := TempSlot(mid);
    ExprBalanced(w.u, e.right, Deeper(k, 2), mid);
    var ls, m1 := LogicEnter(w, a, l, e.op, t, r.code, v, m0);
    LogicTest(w, a, l, e.op, t, r.code, ls, v, m1);
    TempRel(w, s, env.scopes, mid, m0, v);
    m := m1;
    if Skips(w.c.prims, e.op, v) {
      LogicEnd(w, a, l, e.op, t, r.code, ls, m);
    } else {
      m := LogicRight(w, fuel, e, k, env, mid, s, a, l, r, ls, m1);
    }
  }

  // The right operand, inside both blocks.
  lemma {:induction false} LogicRight(w: World, fuel: nat, e: Expr, k: Option<nat>, env: Env, mid: Env, s: State, a: Config,
                                      l: seq<Instr>, r: Emitted, ls: seq<Label>, m1: Mem) returns (m: Mem)
    requires e.Bin? && a.Run? && Linked(w) && LabelsOk(a.frame, k) && w.c.mode.Ir? && w.c.prims.Valid()
    requires mid.scopes != [] && Good(mid) && Visible(mid.scopes) == Visible(env.scopes) && Grows(r.env, r.env)
    requires Innermost(mid.scopes, TEMP).Some? && TempSlot(mid) < |a.frame.locals|
    requires GenExpr(w.u, e.right, Deeper(k, 2), mid) == Some(r) && !EvalExpr(w.c, fuel, e.right, s).o.Fail?
    requires At(w, a.frame, l + [LocalSet(TempSlot(mid))] + ShortCircuit(e.op, TempSlot(mid), r.code) + [LocalGet(TempSlot(mid))])
    requires Fits(w, a.frame, r.env) && |ls| == 2 && |m1.locals| == |a.frame.locals|
    requires Rel(w, s, env.scopes, m1) && Runs(w, a, Within(a, |l| + 4 + |SkipTest(e.op)|, ls, [], m1))
    ensures var y := EvalExpr(w.c, fuel, e.right, s);
      Simulates(w, k, env, a, |l| + 8 + |SkipTest(e.op)| + |r.code|, y, Vals(y.o), m)
    decreases fuel, e, 0, 0
  {
    hide Linked, Good, ScopesRel, GlobalsRel, Segment, Runs, GenExpr, EvalExpr, Grows, Visible, LabelsOk, At;
    var t := TempSlot(mid);
    var off := |l| + 4 + |SkipTest(e.op)|;
    var n := off + |r.code| + 4;
    var b := Within(a, off, ls, [], m1);
    LogicLayout(w, a, l, e.op, t, r.code);
    WithinInside(a, off, ls, [], m1);
    InsideLabels(a, b, 2, k);
    AtMoved(w, a.frame.(pc := a.frame.pc + off), b.frame, r.code);
    ReadyAt(w, Deeper(k, 2), env, mid, s, b, r, a.frame, r.env);
    m := SimExpr(w, fuel, e.right, Deeper(k, 2), mid, s, b);
    var y := EvalExpr(w.c, fuel, e.right, s);
    if y.o.Norm? {
      RunsTrans(w, a, b, Next(b, |r.code|, [y.o.v], m));
      NextWithin(a, off, ls, [], m1, |r.code|, [y.o.v], m);
      GoLocalSet(w, a, off + |r.code|, ls, [], y.o.v, m, t);
      TempRel(w, y.st, env.scopes, mid, m, y.o.v);
      m := m.(locals := m.locals[t := y.o.v]);
      assert ls == [ls[0]] + [ls[1]];
      GoEnd(w, a, off + |r.code| + 1, [ls[0]], ls[1], [], m);
      LogicEnd(w, a, l, e.op, t, r.code, ls, m);
    } else {
      AbruptInside(w, k, a, b, 2, y.o, m, n, |r.code|, [], []);
    }
  }

  // ---- ?? ----

  lemma CoalesceParts(w: World, fuel: nat, e: Expr, k: Option<nat>, env: Env, s: State)
    requires e.Coalesce? && env.scopes != [] && GenExpr(w.u, e, k, env).Some? && Good(env)
    ensures GenExpr(w.u, e.first, k, env).Some?
    ensures var l := GenExpr(w.u, e.first, k, env).value;
      && l.env.scopes != []
      && var mid := WithTemp(l.env);
      && mid.scopes != [] && Good(mid) && Visible(mid.scopes) == Visible(env.scopes)
      && var t := TempSlot(mid);
      && t < |mid.locals| && GenExpr(w.u, e.default, Deeper(k, 1), mid).Some?
      && var r := GenExpr(w.u, e.default, Deeper(k, 1), mid).value;
      && GenExpr(w.u, e, k, env) == Some(Emitted(l.code + NullTest(t) + IfElse(r.code, [LocalGet(t)]), r.env))
      && Grows(l.env, r.env) && Grows(mid, r.env) && Grows(r.env, r.env)
    ensures var x := EvalExpr(w.c, fuel, e.first, s);
      EvalExpr(w.c, fuel, e, s) == if x.o == Norm(Null) then EvalExpr(w.c, fuel, e.default, x.st) else x
  {
  }

  // From the left value to whether it is null.
  lemma NullTestRun(w: World, a: Config, n: nat, t: nat, v: Value, m: Mem)
    requires a.Run? && At(w, a.frame.(pc := a.frame.pc + n), NullTest(t)) && t < |m.locals|
    requires Runs(w, a, Within(a, n, [], [v], m))
    ensures Runs(w, a, Within(a, n + 5, [], [Bool(v == Null)], m.(locals := m.locals[t := v])))
  {
    hide Runs, At;
    var m1 := m.(locals := m.locals[t := v]);
    var f := a.frame.(pc := a.frame.pc + n);
    Fetch(w, f, NullTest(t), 0);
    Fetch(w, f, NullTest(t), 1);
    Fetch(w, f, NullTest(t), 2);
    Fetch(w, f, NullTest(t), 3);
    Fetch(w, f, NullTest(t), 4);
    assert [] + [v] == [v];
    GoLocalSet(w, a, n, [], [], v, m, t);
    GoPush(w, a, n + 1, [], [], m1, LocalGet(t));
    GoTag(w, a, n + 2, [], [], v, m1);
    GoPush(w, a, n + 3, [], [] + [Int(TagOf(v))], m1, PushI64(0));
    GoEq(w, a, n + 4, [], [], Int(TagOf(v)), Int(0), m1);
    assert [] + [Bool(v == Null)] == [Bool(v == Null)];
  }

  lemma {:induction false} SimCoalesce(w: World, fuel: nat, e: Expr, k: Option<nat>, env: Env, s: State, a: Config) returns (m: Mem)
    requires e.Coalesce? && env.scopes != []
    requires Ready(w, k, env, s, a, GenExpr(w.u, e, k, env)) && !EvalExpr(w.c, fuel, e, s).o.Fail?
    ensures var r := EvalExpr(w.c, fuel, e, s);
      Simulates(w, k, env, a, |GenExpr(w.u, e, k, env).value.code|, r, Vals(r.o), m)
    decreases fuel, e, 1
  {
    hide Linked, Good, ScopesRel, GlobalsRel, Segment, Runs, GenExpr, EvalExpr, Grows, Visible, LabelsOk, At, Balanced, Does, WithTemp, IfElse;
    CoalesceParts(w, fuel, e, k, env, s);
    var l := GenExpr(w.u, e.first, k, env).value;
    var mid := WithTemp(l.env);
    var t := TempSlot(mid);
    var r := GenExpr(w.u, e.default, Deeper(k, 1), mid).value;
    Split3(w, a.frame, l.code, NullTest(t), IfElse(r.code, [LocalGet(t)]));
    FitsEarlier(w, a.frame, l.env, r.env);
    FitsEarlier(w, a.frame, mid, r.env);
    m := SimExpr(w, fuel, e.first, k, env, s, a);
    var x := EvalExpr(w.c, fuel, e.first, s);
    if x.o.Norm? {
      DoesNorm(w, k, a, |l.code|, x.o, [x.o.v], m);
      WithinNext(a, |l.code|, [x.o.v], m);
      NullTestRun(w, a, |l.code|, t, x.o.v, m);
      TempRel(w, x.st, env.scopes, mid, m, x.o.v);
      m := CoalesceRest(w, fuel, e, k, env, mid, x.st, a, |l.code| + 5, r, x.o.v, m.(locals := m.locals[t := x.o.v]));
      assert |GenExpr(w.u, e, k, env).value.code| == |l.code| + 5 + |IfElse(r.code, [LocalGet(t)])|;
    } else {
      Abrupt(w, k, a, |l.code|, |GenExpr(w.u, e, k, env).value.code|, x.o, [], [], m);
    }
  }

  // From the null test on.
  lemma {:induction false} CoalesceRest(w: World, fuel: nat, e: Expr, k: Option<nat>, env: Env, mid: Env, s: State, a: Config,
                                        off: nat, r: Emitted, v: Value, m0: Mem) returns (m: Mem)
    requires e.Coalesce? && a.Run? && Linked(w) && LabelsOk(a.frame, k) && w.c.mode.Ir? && w.c.prims.Valid()
    requires mid.scopes != [] && Good(mid) && Visible(mid.scopes) == Visible(env.scopes) && Grows(r.env, r.env)
    requires Innermost(mid.scopes, TEMP).Some? && TempSlot(mid) < |a.frame.locals|
    requires GenExpr(w.u, e.default, Deeper(k, 1), mid) == Some(r)
    requires v == Null ==> !EvalExpr(w.c, fuel, e.default, s).o.Fail?
    requires At(w, a.frame.(pc := a.frame.pc + off), IfElse(r.code, [LocalGet(TempSlot(mid))]))
    requires Fits(w, a.frame, r.env) && |m0.locals| == |a.frame.locals| && m0.locals[TempSlot(mid)] == v
    requires Rel(w, s, env.scopes, m0) && Runs(w, a, Within(a, off, [], [Bool(v == Null)], m0))
    ensures var y := if v == Null then EvalExpr(w.c, fuel, e.default, s) else Res(Norm(v), s);
      Simulates(w, k, env, a, off + |IfElse(r.code, [LocalGet(TempSlot(mid))])|, y, Vals(y.o), m)
    decreases fuel, e, 0
  {
    hide Linked, Good, ScopesRel, GlobalsRel, Segment, Runs, GenExpr, EvalExpr, Grows, Visible, LabelsOk, At, Balanced, Does, IfElse, Fits;
    var t := TempSlot(mid);
    var els := [LocalGet(t)];
    ExprBalanced(w.u, e.default, Deeper(k, 1), mid);
    PlainBalanced(els);
    IfEnter(w, a, off, Bool(v == Null), m0, r.code, els);
    IfParts(w, a.frame.(pc := a.frame.pc + off), r.code, els);
    var ls := [IfLabel(a, off, r.code, els)];
    if v == Null {
      var b := Within(a, off + 1, ls, [], m0);
      WithinInside(a, off + 1, ls, [], m0);
      InsideLabels(a, b, 1, k);
      AtMoved(w, a.frame.(pc := a.frame.pc + off + 1), b.frame, r.code);
      ReadyAt(w, Deeper(k, 1), env, mid, s, b, r, a.frame, r.env);
      m := SimExpr(w, fuel, e.default, Deeper(k, 1), mid, s, b);
      var y := EvalExpr(w.c, fuel, e.default, s);
      IfBranchDone(w, k, a, off, m0, r.code, els, true, y.o, m);
    } else {
      m := m0;
      KeepFirst(w, k, a, off, r.code, t, v, m);
    }
  }

  // A value that is not null is reloaded from the scratch local.
  lemma KeepFirst(w: World, k: Option<nat>, a: Config, off: nat, thn: seq<Instr>, t: nat, v: Value, m: Mem)
    requires a.Run? && LabelsOk(a.frame, k) && |m.locals| == |a.frame.locals| && t < |m.locals| && m.locals[t] == v
    requires At(w, a.frame.(pc := a.frame.pc + off), IfElse(thn, [LocalGet(t)])) && Balanced(thn) && Balanced([LocalGet(t)])
    requires Runs(w, a, Within(a, off + |thn| + 2, [IfLabel(a, off, thn, [LocalGet(t)])], [], m))
    ensures Does(w, k, a, off + |IfElse(thn, [LocalGet(t)])|, Norm(v), [v], m)
  {
    hide Segment, Runs, LabelsOk, At, Balanced, Does, IfElse;
    var els := [LocalGet(t)];
    var ls := [IfLabel(a, off, thn, els)];
    IfParts(w, a.frame.(pc := a.frame.pc + off), thn, els);
    AtMoved(w, a.frame.(pc := a.frame.pc + off + |thn| + 2), a.frame.(pc := a.frame.pc + (off + |thn| + 2)), els);
    Fetch(w, a.frame.(pc := a.frame.pc + (off + |thn| + 2)), els, 0);
    GoPush(w, a, off + |thn| + 2, ls, [], m, LocalGet(t));
    assert [] + [v] == [v];
    IfElseLeave(w, a, off, v, m, thn, els);
    WithinNext(a, off + |IfElse(thn, els)|, [v], m);
    DoesNorm(w, k, a, off + |IfElse(thn, els)|, Norm(v), [v], m);
  }

  // ---- if ----

  lemma IfExprParts(w: World, fuel: nat, e: Expr, k: Option<nat>, env: Env, s: State)
    requires e.If? && env.scopes != [] && GenExpr(w.u, e, k, env).Some? && Good(env) && w.c.prims.Valid() && w.c.mode.Ir?
    ensures GenExpr(w.u, e.cond, k, env).Some?
    ensures var x := GenExpr(w.u, e.cond, k, env).value;
      && x.env.scopes != [] && Good(x.env) && Visible(x.env.scopes) == Visible(env.scopes)
      && GenBlock(w.u, e.thn, Deeper(k, 1), x.env).Some?
      && var t := GenBlock(w.u, e.thn, Deeper(k, 1), x.env).value;
      && t.env.scopes != [] && Good(t.env) && Visible(t.env.scopes) == Visible(env.scopes)
      && var f := if e.els.Some? then GenBlock(w.u, e.els.value, Deeper(k, 1), t.env) else Some(Emitted([PushNull], t.env));
      && f.Some?
      && GenExpr(w.u, e, k, env) == Some(Emitted(x.code + IfElse(t.code, f.value.code), f.value.env))
      && Grows(x.env, f.value.env) && Grows(t.env, f.value.env) && Grows(f.value.env, f.value.env)
    ensures var x := EvalExpr(w.c, fuel, e.cond, s);
      var r := EvalExpr(w.c, fuel, e, s);
      if !x.o.Norm? then r == x
      else
        !r.o.Fail? ==> x.o.v.Bool? && w.c.prims.truthy(x.o.v) == x.o.v.b
                       && r == if x.o.v.b then EvalBlock(w.c, fuel, e.thn, x.st)
                               else if e.els.Some? then EvalBlock(w.c, fuel, e.els.value, x.st)
                               else Res(Norm(Null), x.st)
  {
  }

  lemma {:induction false} SimIf(w: World, fuel: nat, e: Expr, k: Option<nat>, env: Env, s: State, a: Config) returns (m: Mem)
    requires e.If? && env.scopes != []
    requires Ready(w, k, env, s, a, GenExpr(w.u, e, k, env)) && !EvalExpr(w.c, fuel, e, s).o.Fail?
    ensures var r := EvalExpr(w.c, fuel, e, s);
      Simulates(w, k, env, a, |GenExpr(w.u, e, k, env).value.code|, r, Vals(r.o), m)
    decreases fuel, e, 1
  {
    hide Linked, Good, ScopesRel, GlobalsRel, Segment, Runs, GenExpr, GenBlock, EvalExpr, EvalBlock, Grows, Visible, LabelsOk, At, Balanced, Does, IfElse;
    IfExprParts(w, fuel, e, k, env, s);
    var x := GenExpr(w.u, e.cond, k, env).value;
    var t := GenBlock(w.u, e.thn, Deeper(k, 1), x.env).value;
    var f := (if e.els.Some? then GenBlock(w.u, e.els.value, Deeper(k, 1), t.env) else Some(Emitted([PushNull], t.env))).value;
    Split(w, a.frame, x.code, IfElse(t.code, f.code));
    FitsEarlier(w, a.frame, x.env, f.env);
    m := SimExpr(w, fuel, e.cond, k, env, s, a);
    var c := EvalExpr(w.c, fuel, e.cond, s);
    if c.o.Norm? {
      DoesNorm(w, k, a, |x.code|, c.o, [c.o.v], m);
      WithinNext(a, |x.code|, [c.o.v], m);
      m := IfRest(w, fuel, e, k, env, x.env, c.st, a, |x.code|, t, f, c.o.v, m);
      assert |GenExpr(w.u, e, k, env).value.code| == |x.code| + |IfElse(t.code, f.code)|;
    } else {
      Abrupt(w, k, a, |x.code|, |GenExpr(w.u, e, k, env).value.code|, c.o, [], [], m);
    }
  }

  // From the condition on.
  lemma {:induction false} IfRest(w: World, fuel: nat, e: Expr, k: Option<nat>, env: Env, env1: Env, s: State, a: Config,
                                  off: nat, t: Emitted, f: Emitted, v: Value, m0: Mem) returns (m: Mem)
    requires e.If? && a.Run? && Linked(w) && LabelsOk(a.frame, k) && w.c.mode.Ir? && w.c.prims.Valid()
    requires env1.scopes != [] && Good(env1) && Visible(env1.scopes) == Visible(env.scopes)
    requires t.env.scopes != [] && Good(t.env) && Visible(t.env.scopes) == Visible(env.scopes)
    requires GenBlock(w.u, e.thn, Deeper(k, 1), env1) == Some(t)
    requires (if e.els.Some? then GenBlock(w.u, e.els.value, Deeper(k, 1), t.env) else Some(Emitted([PushNull], t.env))) == Some(f)
    requires v.Bool? && w.c.prims.truthy(v) == v.b
    requires v.b ==> !EvalBlock(w.c, fuel, e.thn, s).o.Fail?
    requires !v.b && e.els.Some? ==> !EvalBlock(w.c, fuel, e.els.value, s).o.Fail?
    requires At(w, a.frame.(pc := a.frame.pc + off), IfElse(t.code, f.code))
    requires Fits(w, a.frame, f.env) && Grows(t.env, f.env) && Grows(f.env, f.env) && |m0.locals| == |a.frame.locals|
    requires Rel(w, s, env.scopes, m0) && Runs(w, a, Within(a, off, [], [v], m0))
    ensures var y := if v.b then EvalBlock(w.c, fuel, e.thn, s)
                     else if e.els.Some? then EvalBlock(w.c, fuel, e.els.value, s) else Res(Norm(Null), s);
      Simulates(w, k, env, a, off + |IfElse(t.code, f.code)|, y, Vals(y.o), m)
    decreases fuel, e, 0
  {
    hide Linked, Good, ScopesRel, GlobalsRel, Segment, Runs, GenExpr, GenBlock, EvalExpr, EvalBlock, Grows, Visible, LabelsOk, At, Balanced, Does, IfElse, Fits;
    BlockBalanced(w.u, e.thn, Deeper(k, 1), env1);
    PlainBalanced([PushNull]);
    if e.els.Some? { BlockBalanced(w.u, e.els.value, Deeper(k, 1), t.env); }
    IfEnter(w, a, off, v, m0, t.code, f.code);
    if v.b {
      m := BranchRun(w, fuel, e.thn, k, env, env1, s, a, off, t.code, f.code, true, t, f.env, m0);
    } else if e.els.Some? {
      m := BranchRun(w, fuel, e.els.value, k, env, t.env, s, a, off, t.code, f.code, false, f, f.env, m0);
    } else {
      m := m0;
      NoElse(w, k, a, off, t.code, m);
    }
  }

  // Running the block of the branch taken.
  lemma {:induction false} BranchRun(w: World, fuel: nat, bl: Block, k: Option<nat>, env: Env, env1: Env, s: State, a: Config,
                                     off: nat, thn: seq<Instr>, els: seq<Instr>, taken: bool, out: Emitted, final: Env, m0: Mem)
      returns (m: Mem)
    requires a.Run? && Linked(w) && LabelsOk(a.frame, k) && w.c.mode.Ir? && w.c.prims.Valid()
    requires env1.scopes != [] && Good(env1) && Visible(env1.scopes) == Visible(env.scopes)
    requires GenBlock(w.u, bl, Deeper(k, 1), env1) == Some(out) && out.code == (if taken then thn else els)
    requires !EvalBlock(w.c, fuel, bl, s).o.Fail? && Balanced(thn) && Balanced(els)
    requires At(w, a.frame.(pc := a.frame.pc + off), IfElse(thn, els))
    requires Fits(w, a.frame, final) && Grows(out.env, final) && |m0.locals| == |a.frame.locals| && Rel(w, s, env.scopes, m0)
    requires Runs(w, a, Within(a, off + (if taken then 1 else |thn| + 2), [IfLabel(a, off, thn, els)], [], m0))
    ensures var y := EvalBlock(w.c, fuel, bl, s);
      Simulates(w, k, env, a, off + |IfElse(thn, els)|, y, Vals(y.o), m)
    decreases fuel, bl, 3
  {
    hide Linked, Good, ScopesRel, GlobalsRel, Segment, Runs, GenExpr, GenBlock, EvalExpr, EvalBlock, Grows, Visible, LabelsOk, At, Balanced, Does, IfElse, Fits;
    var ls := [IfLabel(a, off, thn, els)];
    var to := off + (if taken then 1 else |thn| + 2);
    var b := Within(a, to, ls, [], m0);
    WithinInside(a, to, ls, [], m0);
    InsideLabels(a, b, 1, k);
    var f := a.frame.(pc := a.frame.pc + off);
    IfParts(w, f, thn, els);
    AtMoved(w, f.(pc := f.pc + (if taken then 1 else 2 + |thn|)), b.frame, out.code);
    ReadyAt(w, Deeper(k, 1), env, env1, s, b, out, a.frame, final);
    m := SimBlock(w, fuel, bl, Deeper(k, 1), env1, s, b);
    IfBranchDone(w, k, a, off, m0, thn, els, taken, EvalBlock(w.c, fuel, bl, s).o, m);
  }

  // A missing else-branch gives null.
  lemma NoElse(w: World, k: Option<nat>, a: Config, off: nat, thn: seq<Instr>, m: Mem)
    requires a.Run? && LabelsOk(a.frame, k) && |m.locals| == |a.frame.locals|
    requires At(w, a.frame.(pc := a.frame.pc + off), IfElse(thn, [PushNull]))
    requires Runs(w, a, Within(a, off + |thn| + 2, [IfLabel(a, off, thn, [PushNull])], [], m))
    ensures Does(w, k, a, off + |IfElse(thn, [PushNull])|, Norm(Null), [Null], m)
  {
    hide Runs, At, LabelsOk, Does, IfElse;
    var els := [PushNull];
    var ls := [IfLabel(a, off, thn, els)];
    var f := a.frame.(pc := a.frame.pc + off);
    IfParts(w, f, thn, els);
    AtMoved(w, f.(pc := f.pc + 2 + |thn|), a.frame.(pc := a.frame.pc + (off + |thn| + 2)), els);
    Fetch(w, a.frame.(pc := a.frame.pc + (off + |thn| + 2)), els, 0);
    GoPush(w, a, off + |thn| + 2, ls, [], m, PushNull);
    assert [] + [Null] == [Null];
    IfElseLeave(w, a, off, Null, m, thn, els);
    WithinNext(a, off + |IfElse(thn, els)|, [Null], m);
    DoesNorm(w, k, a, off + |IfElse(thn, els)|, Norm(Null), [Null], m);
  }

  // ---- calls ----

  lemma ArgsParts(w: World, fuel: nat, args: seq<Expr>, k: Option<nat>, env: Env, s: State)
    requires args != [] && env.scopes != [] && GenArgs(w.u, args, k, env).Some? && Good(env)
    ensures GenExpr(w.u, args[0], k, env).Some?
    ensures var x := GenExpr(w.u, args[0], k, env).value;
      && x.env.scopes != [] && Good(x.env) && Visible(x.env.scopes) == Visible(env.scopes)
      && GenArgs(w.u, args[1..], k, x.env).Some?
      && var r := GenArgs(w.u, args[1..], k, x.env).value;
      && GenArgs(w.u, args, k, env) == Some(Emitted(x.code + r.code, r.env))
      && Grows(x.env, r.env) && Grows(r.env, r.env)
    ensures var x := EvalExpr(w.c, fuel, args[0], s);
      EvalArgs(w.c, fuel, args, s) ==
        if !x.o.Norm? then ArgsRes(x.o, [], x.st)
        else
          var rest := EvalArgs(w.c, fuel, args[1..], x.st);
          ArgsRes(rest.o, [x.o.v] + rest.vs, rest.st)
  {
  }

  lemma {:induction false} SimArgs(w: World, fuel: nat, args: seq<Expr>, k: Option<nat>, env: Env, s: State, a: Config) returns (m: Mem)
    requires env.scopes != [] && Ready(w, k, env, s, a, GenArgs(w.u, args, k, env)) && !EvalArgs(w.c, fuel, args, s).o.Fail?
    ensures var r := EvalArgs(w.c, fuel, args, s);
      Simulates(w, k, env, a, |GenArgs(w.u, args, k, env).value.code|, Res(r.o, r.st), if r.o.Norm? then r.vs else [], m)
    decreases fuel, args, 0
  {
    if args == [] {
      m := MemOf(a);
      RunsRefl(w, a);
      assert Next(a, 0, [], m) == a by { assert a.frame.stack + [] == a.frame.stack; }
    } else {
      m := ArgsRun(w, fuel, args, k, env, s, a);
    }
  }

  lemma {:induction false} ArgsRun(w: World, fuel: nat, args: seq<Expr>, k: Option<nat>, env: Env, s: State, a: Config) returns (m: Mem)
    requires args != []
    requires env.scopes != [] && Ready(w, k, env, s, a, GenArgs(w.u, args, k, env)) && !EvalArgs(w.c, fuel, args, s).o.Fail?
    ensures var r := EvalArgs(w.c, fuel, args, s);
      Simulates(w, k, env, a, |GenArgs(w.u, args, k, env).value.code|, Res(r.o, r.st), if r.o.Norm? then r.vs else [], m)
    decreases fuel, args, 0, 0
  {
    hide Linked, Good, ScopesRel, GlobalsRel, Segment, Runs, GenExpr, GenArgs, EvalExpr, EvalArgs, Grows, Visible, LabelsOk, At, Does, Fits;
    ArgsParts(w, fuel, args, k, env, s);
    var x := GenExpr(w.u, args[0], k, env).value;
    var r := GenArgs(w.u, args[1..], k, x.env).value;
    Split(w, a.frame, x.code, r.code);
    FitsEarlier(w, a.frame, x.env, r.env);
    m := SimExpr(w, fuel, args[0], k, env, s, a);
    var y := EvalExpr(w.c, fuel, args[0], s);
    if y.o.Norm? {
      var m1 := m;
      DoesNorm(w, k, a, |x.code|, y.o, [y.o.v], m1);
      ReadyNext(w, k, env, x.env, y.st, a, |x.code|, [y.o.v], m1, r, r.env);
      m := SimArgs(w, fuel, args[1..], k, x.env, y.st, Next(a, |x.code|, [y.o.v], m1));
      var rest := EvalArgs(w.c, fuel, args[1..], y.st);
      InSequence(w, k, a, |x.code|, y.o, [y.o.v], m1, |r.code|, rest.o, if rest.o.Norm? then rest.vs else [], m);
    } else {
      Abrupt(w, k, a, |x.code|, |x.code + r.code|, y.o, [], [], m);
    }
  }

  lemma CallParts(w: World, fuel: nat, e: Expr, k: Option<nat>, env: Env, s: State)
    requires e.Call? && env.scopes != [] && GenExpr(w.u, e, k, env).Some? && Good(env) && w.c.mode.Ir?
    ensures GenArgs(w.u, e.args, k, env).Some?
    ensures var g := GenArgs(w.u, e.args, k, env).value;
      && Grows(g.env, GenExpr(w.u, e, k, env).value.env)
      && |GenExpr(w.u, e, k, env).value.code| >= |g.code| + 1
      && (e.fn in w.u.fns ==> GenExpr(w.u, e, k, env) == Some(Emitted(g.code + [Invoke(w.u.fns[e.fn])], g.env)))
    ensures var a := EvalArgs(w.c, fuel, e.args, s);
      var r := EvalExpr(w.c, fuel, e, s);
      if !a.o.Norm? then r == Res(a.o, a.st)
      else
        !r.o.Fail? ==>
          && e.fn in w.c.funs && |w.c.funs[e.fn].params| == |a.vs| && fuel > 0 && TEMP !in w.c.funs[e.fn].params
          && var d := w.c.funs[e.fn];
          && var b := EvalBlock(w.c.(top := false), fuel - 1, d.body, State([ParamScope(d.params, a.vs)], a.st.globals, a.st.out));
          && (b.o.Norm? || b.o.Ret? || b.o.Thrown?)
          && r == Res(if b.o.Thrown? then b.o else Norm(b.o.v), State(a.st.scopes, b.st.globals, b.st.out))
  {
  }

  lemma LinkedFn(w: World, x: string)
    requires Linked(w) && x in w.c.funs
    ensures x in w.u.fns
  {
    assert LinkedAt(w, x);
  }

  lemma LinkedCallee(w: World)
    requires Linked(w)
    ensures Linked(World(w.c.(top := false), w.u.(top := false), w.m))
  {
    var w' := World(w.c.(top := false), w.u.(top := false), w.m);
    forall x ensures LinkedAt(w', x) {
      assert LinkedAt(w, x);
      if x in w.c.funs {
        var ss, gs :| CompiledFrom(w.u, w.m, w.c.funs[x], w.u.fns[x], ss, gs);
        assert CompiledFrom(w'.u, w'.m, w.c.funs[x], w.u.fns[x], ss, gs);
      }
    }
  }

  lemma {:induction false} SimCall(w: World, fuel: nat, e: Expr, k: Option<nat>, env: Env, s: State, a: Config) returns (m: Mem)
    requires e.Call? && env.scopes != []
    requires Ready(w, k, env, s, a, GenExpr(w.u, e, k, env)) && !EvalExpr(w.c, fuel, e, s).o.Fail?
    ensures var r := EvalExpr(w.c, fuel, e, s);
      Simulates(w, k, env, a, |GenExpr(w.u, e, k, env).value.code|, r, Vals(r.o), m)
    decreases fuel, e, 1
  {
    hide Good, ScopesRel, GlobalsRel, Segment, Runs, GenExpr, GenArgs, EvalExpr, EvalArgs, EvalBlock, Grows, Visible, LabelsOk, At, Does, Fits, LinkedAt;
    CallParts(w, fuel, e, k, env, s);
    var g := GenArgs(w.u, e.args, k, env).value;
    var last := GenExpr(w.u, e, k, env).value.code;
    FitsEarlier(w, a.frame, g.env, GenExpr(w.u, e, k, env).value.env);
    CallSplit(w, a.frame, e, k, env);
    m := SimArgs(w, fuel, e.args, k, env, s, a);
    var r := EvalArgs(w.c, fuel, e.args, s);
    if r.o.Norm? {
      DoesNorm(w, k, a, |g.code|, r.o, r.vs, m);
      LinkedFn(w, e.fn);
      m := CalleeRun(w, fuel, e, k, env, r.st, a, |g.code|, r.vs, m);
    } else {
      Abrupt(w, k, a, |g.code|, |last|, r.o, [], [], m);
    }
  }

  lemma CallSplit(w: World, f: Frame, e: Expr, k: Option<nat>, env: Env)
    requires e.Call? && env.scopes != [] && GenExpr(w.u, e, k, env).Some? && At(w, f, GenExpr(w.u, e, k, env).value.code)
    ensures GenArgs(w.u, e.args, k, env).Some? && At(w, f, GenArgs(w.u, e.args, k, env).value.code)
    ensures e.fn in w.u.fns ==> Op(w, f.(pc := f.pc + |GenArgs(w.u, e.args, k, env).value.code|), Invoke(w.u.fns[e.fn]))
  {
    hide Segment;
    var g := GenArgs(w.u, e.args, k, env).value;
    var last := GenCallee(w.u, e.fn, |e.args|, g.env).code;
    Split(w, f, g.code, last);
    Fetch(w, f.(pc := f.pc + |g.code|), last, 0);
  }

  // From the evaluated arguments to the value of the call.
  lemma {:induction false} CalleeRun(w: World, fuel: nat, e: Expr, k: Option<nat>, env: Env, s: State, a: Config,
                                     n: nat, vs: seq<Value>, m0: Mem) returns (m: Mem)
    requires e.Call? && a.Run? && Linked(w) && LabelsOk(a.frame, k)
    requires e.fn in w.c.funs && |w.c.funs[e.fn].params| == |vs| && fuel > 0 && TEMP !in w.c.funs[e.fn].params
    requires e.fn in w.u.fns ==> Op(w, a.frame.(pc := a.frame.pc + n), Invoke(w.u.fns[e.fn]))
    requires |m0.locals| == |a.frame.locals| && Rel(w, s, env.scopes, m0) && Runs(w, a, Next(a, n, vs, m0))
    requires var d := w.c.funs[e.fn];
      var b := EvalBlock(w.c.(top := false), fuel - 1, d.body, State([ParamScope(d.params, vs)], s.globals, s.out));
      b.o.Norm? || b.o.Ret? || b.o.Thrown?
    ensures var d := w.c.funs[e.fn];
      var b := EvalBlock(w.c.(top := false), fuel - 1, d.body, State([ParamScope(d.params, vs)], s.globals, s.out));
      var o := if b.o.Thrown? then b.o else Norm(b.o.v);
      Simulates(w, k, env, a, n + 1, Res(o, State(s.scopes, b.st.globals, b.st.out)), Vals(o), m)
    decreases fuel, e, 0
  {
    hide Good, ScopesRel, GlobalsRel, Segment, Runs, EvalBlock, GenBlock, Grows, Visible, LabelsOk, At, Does;
    assert LinkedAt(w, e.fn);
    var d := w.c.funs[e.fn];
    var fi := w.u.fns[e.fn];
    var ss, gs :| CompiledFrom(w.u, w.m, d, fi, ss, gs);
    var w' := World(w.c.(top := false), w.u.(top := false), w.m);
    LinkedCallee(w);
    var entry := ParamEnv(d.params, ss, gs);
    var out := GenBlock(w'.u, d.body, None, entry).value;
    var b0 := Next(a, n, vs, m0);
    EntryReady(w', d, fi, ss, gs, vs, State([ParamScope(d.params, vs)], s.globals, s.out), b0);
    DoInvoke(w, a, b0, fi);
    var cc := Called(w.m, b0, fi);
    var m1 := SimBlock(w', fuel - 1, d.body, None, entry, State([ParamScope(d.params, vs)], s.globals, s.out), cc);
    var r := EvalBlock(w'.c, fuel - 1, d.body, State([ParamScope(d.params, vs)], s.globals, s.out));
    m := Mem(m0.locals, m1.globals, m1.out);
    CalleeReturn(w, w', k, a, n, vs, m0, fi, out.code, r.o, m1);
  }

  // The callee's frame corresponds to its parameters.
  lemma EntryReady(w: World, d: FnDecl, fi: nat, ss: seq<string>, gs: seq<string>, vs: seq<Value>, s: State, b: Config)
    requires Linked(w) && w.c.mode.Ir? && w.c.prims.Valid() && !w.u.top && fi < |w.m.functions| && CompiledFrom(w.u, w.m, d, fi, ss, gs)
    requires b.Run? && |d.params| == |vs| <= |b.frame.stack| && b.frame.stack[|b.frame.stack| - |vs|..] == vs && TEMP !in d.params
    requires s.scopes == [ParamScope(d.params, vs)] && s.out == b.out && GlobalsRel(w.m, s.globals, b.globals)
    ensures w.m.functions[fi].params <= w.m.functions[fi].locals
    ensures GenBlock(w.u, d.body, None, ParamEnv(d.params, ss, gs)).Some?
    ensures w.m.functions[fi].code == GenBlock(w.u, d.body, None, ParamEnv(d.params, ss, gs)).value.code + [Leave]
    ensures Ready(w, None, ParamEnv(d.params, ss, gs), s, Called(w.m, b, fi), GenBlock(w.u, d.body, None, ParamEnv(d.params, ss, gs)))
  {
    hide Linked, Good, Rel, GlobalsRel, GenBlock, CompiledFrom, Segment, ParamEnv, ParamScope, Nulls, Called, Ready;
    EntryCode(w, d, fi, ss, gs);
    var f := w.m.functions[fi];
    ParamsCorrespond(w, d.params, vs, ss, gs, Nulls(f.locals - f.params), s, b.globals);
    CalledMem(w, fi, vs, b);
    EntryReadyAt(w, d, fi, ss, gs, s, Called(w.m, b, fi));
  }

  lemma EntryReadyAt(w: World, d: FnDecl, fi: nat, ss: seq<string>, gs: seq<string>, s: State, c: Config)
    requires Linked(w) && w.c.mode.Ir? && w.c.prims.Valid() && !w.u.top && fi < |w.m.functions| && CompiledFrom(w.u, w.m, d, fi, ss, gs)
    requires c.Run? && c.frame.fn == fi && c.frame.pc == 0 && c.frame.labels == [] && |c.frame.locals| == w.m.functions[fi].locals
    requires Good(ParamEnv(d.params, ss, gs)) && Rel(w, s, ParamEnv(d.params, ss, gs).scopes, MemOf(c))
    ensures Ready(w, None, ParamEnv(d.params, ss, gs), s, c, GenBlock(w.u, d.body, None, ParamEnv(d.params, ss, gs)))
  {
    hide Linked, Good, Rel, GenBlock, CompiledFrom, Segment, ParamEnv;
    EntryCode(w, d, fi, ss, gs);
  }

  lemma ParamsCorrespond(w: World, params: seq<string>, vs: seq<Value>, ss: seq<string>, gs: seq<string>, more: seq<Value>, s: State, g: seq<Value>)
    requires |params| == |vs| && TEMP !in params && s.scopes == [ParamScope(params, vs)] && GlobalsRel(w.m, s.globals, g)
    ensures Good(ParamEnv(params, ss, gs))
    ensures Rel(w, s, ParamEnv(params, ss, gs).scopes, Mem(vs + more, g, s.out))
  {
    hide Good, ScopesRel, GlobalsRel, Visible, ParamEnv, ParamScope;
    CalleeRel(params, vs, ss, gs, more);
  }

  lemma CalledMem(w: World, fi: nat, vs: seq<Value>, b: Config)
    requires fi < |w.m.functions| && w.m.functions[fi].params == |vs| <= w.m.functions[fi].locals
    requires b.Run? && |vs| <= |b.frame.stack| && b.frame.stack[|b.frame.stack| - |vs|..] == vs
    ensures var f, c := w.m.functions[fi], Called(w.m, b, fi);
      && c.Run? && c.frame.fn == fi && c.frame.pc == 0 && c.frame.labels == [] && |c.frame.locals| == f.locals
      && MemOf(c) == Mem(vs + Nulls(f.locals - f.params), b.globals, b.out)
  {
  }

  lemma EntryCode(w: World, d: FnDecl, fi: nat, ss: seq<string>, gs: seq<string>)
    requires !w.u.top && fi < |w.m.functions| && CompiledFrom(w.u, w.m, d, fi, ss, gs)
    ensures w.m.functions[fi].params == |d.params| <= w.m.functions[fi].locals
    ensures ParamEnv(d.params, ss, gs).scopes != []
    ensures var out := GenBlock(w.u, d.body, None, ParamEnv(d.params, ss, gs));
      && out.Some? && w.m.functions[fi].code == out.value.code + [Leave]
      && Segment(w.m.functions[fi].code, 0, out.value.code)
      && |out.value.env.locals| == w.m.functions[fi].locals
      && out.value.env.strings <= w.m.strings && out.value.env.globals <= w.m.globals
  {
    hide GenBlock;
    assert w.u.(top := false) == w.u;
    var out := GenBlock(w.u, d.body, None, ParamEnv(d.params, ss, gs)).value;
    assert w.m.functions[fi].code[0..0 + |out.code|] == out.code;
  }

  // The callee ends by returning a value to the caller or by trapping.
  lemma CalleeReturn(w: World, w': World, k: Option<nat>, a: Config, n: nat, vs: seq<Value>, m0: Mem, fi: nat, code: seq<Instr>,
                     o: Outcome, m1: Mem)
    requires a.Run? && w'.m == w.m && w'.c.prims == w.c.prims && LabelsOk(a.frame, k) && |m0.locals| == |a.frame.locals|
    requires fi < |w.m.functions| && w.m.functions[fi].code == code + [Leave]
    requires w.m.functions[fi].params == |vs| && w.m.functions[fi].params <= w.m.functions[fi].locals
    requires var b0 := Next(a, n, vs, m0);
      Runs(w, a, Called(w.m, b0, fi)) && Does(w', None, Called(w.m, b0, fi), |code|, o, if o.Norm? then [o.v] else [], m1)
    requires o.Norm? || o.Ret? || o.Thrown?
    ensures var o' := if o.Thrown? then o else Norm(o.v);
      Does(w, k, a, n + 1, o', if o.Thrown? then [] else [o.v], Mem(m0.locals, m1.globals, m1.out))
  {
    hide LabelsOk;
    var b0 := Next(a, n, vs, m0);
    var cc := Called(w.m, b0, fi);
    var m := Mem(m0.locals, m1.globals, m1.out);
    RunsTrans(w, a, cc, Landing(o, cc, |code|, if o.Norm? then [o.v] else [], None, m1));
    if !o.Thrown? {
      if o.Norm? {
        var d := Next(cc, |code|, [o.v], m1);
        assert Op(w, d.frame, Leave);
        DoLeave(w, a, d);
      }
      var back := cc.callers[|cc.callers| - 1];
      assert cc.callers[..|cc.callers| - 1] == a.callers;
      assert back.stack == a.frame.stack;
      assert Resume(o.v, cc.callers, m1.globals, m1.out) == Next(a, n + 1, [o.v], m);
    }
  }

  // ---- blocks ----

  // A list of statements: after an abrupt end only the outer scopes correspond.
  ghost predicate ListSimulates(w: World, k: Option<nat>, env: Env, env': Env, a: Config, n: nat, r: Res, vals: seq<Value>, m: Mem) {
    && Does(w, k, a, n, r.o, vals, m)
    && (r.o.Norm? ==> Rel(w, r.st, env'.scopes, m))
    && OuterRel(w, r.st, env.scopes, m)
  }

  lemma RelOuter(w: World, s: State, scopes: seq<Slots>, m: Mem)
    requires scopes != [] && Rel(w, s, scopes, m)
    ensures OuterRel(w, s, scopes, m)
  {
  }

  lemma OuterSame(w: World, s: State, a: seq<Slots>, b: seq<Slots>, m: Mem)
    requires OuterRel(w, s, a, m) && |a| == |b| && Visible(a)[..|a|-1] == Visible(b)[..|a|-1]
    ensures OuterRel(w, s, b, m)
  {
  }

  lemma EnterRel(w: World, s: State, env: Env, m: Mem)
    requires Rel(w, s, env.scopes, m)
    ensures Rel(w, PushScope(s), Enter(env).scopes, m)
  {
    var vis, vis' := Visible(env.scopes), Visible(Enter(env).scopes);
    forall i, x | 0 <= i < |PushScope(s).scopes| ensures x in PushScope(s).scopes[i] <==> x in vis'[i] {
      if i < |s.scopes| { assert x in s.scopes[i] <==> x in vis[i]; }
    }
    forall i, x | 0 <= i < |PushScope(s).scopes| && x in PushScope(s).scopes[i]
      ensures vis'[i][x] < |m.locals| && m.locals[vis'[i][x]] == PushScope(s).scopes[i][x]
    {
      assert i < |s.scopes| && x in s.scopes[i] && vis'[i][x] == vis[i][x];
    }
  }

  lemma ExitRel(w: World, s: State, inner: seq<Slots>, outer: seq<Slots>, m: Mem)
    requires OuterRel(w, s, inner, m) && |inner| == |outer| + 1 && Visible(inner)[..|outer|] == Visible(outer)
    ensures s.scopes != [] && Rel(w, PopScope(s), outer, m)
  {
  }

  lemma InnerParts(w: World, fuel: nat, bl: Block, k: Option<nat>, env: Env, s: State)
    requires env.scopes != [] && GenInner(w.u, bl, k, env).Some? && Good(env)
    ensures GenStmts(w.u, bl.stmts, k, env).Some?
    ensures var ss := GenStmts(w.u, bl.stmts, k, env).value;
      && ss.env.scopes != [] && Good(ss.env) && |ss.env.scopes| == |env.scopes|
      && Visible(ss.env.scopes)[..|env.scopes|-1] == Visible(env.scopes)[..|env.scopes|-1]
      && (bl.tail.None? ==> GenInner(w.u, bl, k, env) == Some(ss))
      && (bl.tail.Some? ==>
            && GenExpr(w.u, bl.tail.value, k, ss.env).Some?
            && var t := GenExpr(w.u, bl.tail.value, k, ss.env).value;
            && GenInner(w.u, bl, k, env) == Some(Emitted(ss.code + t.code, t.env))
            && Grows(ss.env, t.env) && Grows(t.env, t.env) && Visible(t.env.scopes) == Visible(ss.env.scopes))
    ensures var r := EvalStmts(w.c, fuel, bl.stmts, s);
      EvalBody(w.c, fuel, bl, s) == if !r.o.Norm? || bl.tail.None? then r else EvalExpr(w.c, fuel, bl.tail.value, r.st)
    ensures var r := EvalStmts(w.c, fuel, bl.stmts, s);
      r.o.Norm? ==> r.o == Norm(Null)
  {
  }

  lemma {:induction false} SimInner(w: World, fuel: nat, bl: Block, k: Option<nat>, env: Env, s: State, a: Config) returns (m: Mem)
    requires env.scopes != [] && Ready(w, k, env, s, a, GenInner(w.u, bl, k, env)) && !EvalBody(w.c, fuel, bl, s).o.Fail?
    ensures var r := EvalBody(w.c, fuel, bl, s);
      ListSimulates(w, k, env, GenInner(w.u, bl, k, env).value.env, a, |GenInner(w.u, bl, k, env).value.code|, r,
                    if r.o.Norm? && bl.tail.Some? then [r.o.v] else [], m)
    decreases fuel, bl, 0
  {
    hide Linked, Good, ScopesRel, GlobalsRel, Segment, Runs, GenExpr, GenStmts, GenInner, EvalExpr, EvalStmts, EvalBody, Grows, Visible, LabelsOk, At, Does, Fits, Rel, OuterRel;
    InnerParts(w, fuel, bl, k, env, s);
    var ss := GenStmts(w.u, bl.stmts, k, env).value;
    if bl.tail.None? {
      m := SimStmts(w, fuel, bl.stmts, k, env, s, a);
    } else {
      var t := GenExpr(w.u, bl.tail.value, k, ss.env).value;
      Split(w, a.frame, ss.code, t.code);
      FitsEarlier(w, a.frame, ss.env, t.env);
      m := SimStmts(w, fuel, bl.stmts, k, env, s, a);
      var r := EvalStmts(w.c, fuel, bl.stmts, s);
      if r.o.Norm? {
        var m1 := m;
        DoesNorm(w, k, a, |ss.code|, r.o, [], m1);
        ReadyNext(w, k, ss.env, ss.env, r.st, a, |ss.code|, [], m1, t, t.env);
        m := SimExpr(w, fuel, bl.tail.value, k, ss.env, r.st, Next(a, |ss.code|, [], m1));
        var y := EvalExpr(w.c, fuel, bl.tail.value, r.st);
        InSequence(w, k, a, |ss.code|, r.o, [], m1, |t.code|, y.o, Vals(y.o), m);
        if y.o.Norm? { assert [] + [y.o.v] == [y.o.v]; }
        RelVisible(w, y.st, ss.env.scopes, t.env.scopes, m);
        RelOuter(w, y.st, ss.env.scopes, m);
        OuterSame(w, y.st, ss.env.scopes, env.scopes, m);
      } else {
        Abrupt(w, k, a, |ss.code|, |ss.code + t.code|, r.o, [], [], m);
      }
    }
  }

  lemma RelVisible(w: World, s: State, a: seq<Slots>, b: seq<Slots>, m: Mem)
    requires Rel(w, s, a, m) && Visible(a) == Visible(b)
    ensures Rel(w, s, b, m)
  {
  }

  // The body of a block and its scope.
  lemma {:induction false} SimScoped(w: World, fuel: nat, bl: Block, k: Option<nat>, env: Env, s: State, a: Config) returns (m: Mem)
    requires Ready(w, k, env, s, a, GenInner(w.u, bl, k, Enter(env))) && !EvalBlock(w.c, fuel, bl, s).o.Fail?
    ensures var r := EvalBlock(w.c, fuel, bl, s);
      Simulates(w, k, env, a, |GenInner(w.u, bl, k, Enter(env)).value.code|, r, if r.o.Norm? && bl.tail.Some? then [r.o.v] else [], m)
    decreases fuel, bl, 1, 1
  {
    hide Linked, Good, ScopesRel, GlobalsRel, Segment, Runs, GenInner, EvalBody, Grows, LabelsOk, At, Does, Fits, Rel, OuterRel, Visible;
    var inner := Enter(env);
    var out := GenInner(w.u, bl, k, inner).value;
    EnterReady(w, k, env, s, a, out);
    m := SimInner(w, fuel, bl, k, inner, PushScope(s), a);
    var r := EvalBody(w.c, fuel, bl, PushScope(s));
    EnterVisible(env);
    ExitRel(w, r.st, inner.scopes, env.scopes, m);
  }

  lemma EnterVisible(env: Env)
    ensures Visible(Enter(env).scopes)[..|env.scopes|] == Visible(env.scopes)
  {
  }

  lemma EnterReady(w: World, k: Option<nat>, env: Env, s: State, a: Config, out: Emitted)
    requires Ready(w, k, env, s, a, Some(out))
    ensures Ready(w, k, Enter(env), PushScope(s), a, Some(out))
  {
    hide Linked, ScopesRel, GlobalsRel, Segment, LabelsOk, Visible, At, Fits, Rel;
    assert Rel(w, s, env.scopes, MemOf(a));
    EnterRel(w, s, env, MemOf(a));
  }

  lemma BlockParts(w: World, bl: Block, k: Option<nat>, env: Env)
    ensures GenBlock(w.u, bl, k, env).Some? <==> GenInner(w.u, bl, k, Enter(env)).Some?
    ensures GenBody(w.u, bl, k, env).Some? <==> GenInner(w.u, bl, k, Enter(env)).Some?
    ensures GenInner(w.u, bl, k, Enter(env)).Some? ==>
      var i := GenInner(w.u, bl, k, Enter(env)).value;
      && i.env.scopes != []
      && GenBlock(w.u, bl, k, env) == Some(Emitted(i.code + (if bl.tail.None? then [PushNull] else []), Exit(i.env)))
      && GenBody(w.u, bl, k, env) == Some(Emitted(i.code + (if bl.tail.Some? then [Drop] else []), Exit(i.env)))
  {
  }

  lemma ExitFits(w: World, f: Frame, env: Env)
    requires env.scopes != [] && Fits(w, f, Exit(env))
    ensures Fits(w, f, env)
  {
  }

  // A normal end of a block without a tail carries null.
  lemma NoTailNull(w: World, fuel: nat, bl: Block, s: State)
    requires bl.tail.None? && EvalBlock(w.c, fuel, bl, s).o.Norm?
    ensures EvalBlock(w.c, fuel, bl, s).o == Norm(Null)
  {
  }

  lemma {:induction false} SimBlock(w: World, fuel: nat, bl: Block, k: Option<nat>, env: Env, s: State, a: Config) returns (m: Mem)
    requires env.scopes != [] && Ready(w, k, env, s, a, GenBlock(w.u, bl, k, env)) && !EvalBlock(w.c, fuel, bl, s).o.Fail?
    ensures var r := EvalBlock(w.c, fuel, bl, s);
      Simulates(w, k, env, a, |GenBlock(w.u, bl, k, env).value.code|, r, Vals(r.o), m)
    decreases fuel, bl, 2
  {
    hide Linked, Good, ScopesRel, GlobalsRel, Segment, Runs, GenInner, GenBlock, EvalBlock, Grows, LabelsOk, At, Does, Fits, Rel, Visible;
    BlockParts(w, bl, k, env);
    var i := GenInner(w.u, bl, k, Enter(env)).value;
    var rest := if bl.tail.None? then [PushNull] else [];
    Split(w, a.frame, i.code, rest);
    ExitFits(w, a.frame, i.env);
    m := SimScoped(w, fuel, bl, k, env, s, a);
    var r := EvalBlock(w.c, fuel, bl, s);
    if r.o.Norm? {
      if bl.tail.None? {
        NoTailNull(w, fuel, bl, s);
        DoesNorm(w, k, a, |i.code|, r.o, [], m);
        Fetch(w, a.frame.(pc := a.frame.pc + |i.code|), rest, 0);
        WithinNext(a, |i.code|, [], m);
        GoPush(w, a, |i.code|, [], [], m, PushNull);
        assert [] + [Null] == [Null];
        WithinNext(a, |i.code| + 1, [Null], m);
        DoesNorm(w, k, a, |i.code| + 1, r.o, [Null], m);
      }
    } else {
      Abrupt(w, k, a, |i.code|, |i.code + rest|, r.o, [], [], m);
    }
  }

  // A loop body: like a block, but it leaves nothing.
  lemma {:induction false} SimBody(w: World, fuel: nat, bl: Block, k: Option<nat>, env: Env, s: State, a: Config) returns (m: Mem)
    requires env.scopes != [] && Ready(w, k, env, s, a, GenBody(w.u, bl, k, env)) && !EvalBlock(w.c, fuel, bl, s).o.Fail?
    ensures var r := EvalBlock(w.c, fuel, bl, s);
      Simulates(w, k, env, a, |GenBody(w.u, bl, k, env).value.code|, r, [], m)
    decreases fuel, bl, 2
  {
    hide Linked, Good, ScopesRel, GlobalsRel, Segment, Runs, GenInner, GenBody, EvalBlock, Grows, LabelsOk, At, Does, Fits, Rel, Visible;
    BlockParts(w, bl, k, env);
    var i := GenInner(w.u, bl, k, Enter(env)).value;
    var rest := if bl.tail.Some? then [Drop] else [];
    Split(w, a.frame, i.code, rest);
    ExitFits(w, a.frame, i.env);
    m := SimScoped(w, fuel, bl, k, env, s, a);
    var r := EvalBlock(w.c, fuel, bl, s);
    if r.o.Norm? {
      if bl.tail.Some? {
        DoesNorm(w, k, a, |i.code|, r.o, [r.o.v], m);
        Fetch(w, a.frame.(pc := a.frame.pc + |i.code|), rest, 0);
        WithinNext(a, |i.code|, [r.o.v], m);
        assert [] + [r.o.v] == [r.o.v];
        GoDrop(w, a, |i.code|, [], [], r.o.v, m);
        WithinNext(a, |i.code| + 1, [], m);
        DoesNorm(w, k, a, |i.code| + 1, r.o, [], m);
      }
    } else {
      Abrupt(w, k, a, |i.code|, |i.code + rest|, r.o, [], [], m);
    }
  }

  // ---- statements ----

  lemma StmtsParts(w: World, fuel: nat, ss: seq<Stmt>, k: Option<nat>, env: Env, s: State)
    requires ss != [] && env.scopes != [] && GenStmts(w.u, ss, k, env).Some? && Good(env)
    ensures GenStmt(w.u, ss[0], k, env).Some?
    ensures var x := GenStmt(w.u, ss[0], k, env).value;
      && x.env.scopes != [] && Good(x.env) && |x.env.scopes| == |env.scopes|
      && Visible(x.env.scopes)[..|env.scopes|-1] == Visible(env.scopes)[..|env.scopes|-1]
      && GenStmts(w.u, ss[1..], k, x.env).Some?
      && var r := GenStmts(w.u, ss[1..], k, x.env).value;
      && GenStmts(w.u, ss, k, env) == Some(Emitted(x.code + r.code, r.env))
      && Grows(x.env, r.env) && Grows(r.env, r.env)
    ensures var x := EvalStmt(w.c, fuel, ss[0], s);
      EvalStmts(w.c, fuel, ss, s) == if x.o.Norm? then EvalStmts(w.c, fuel, ss[1..], x.st) else x
  {
  }

  lemma {:induction false} SimStmts(w: World, fuel: nat, ss: seq<Stmt>, k: Option<nat>, env: Env, s: State, a: Config) returns (m: Mem)
    requires env.scopes != [] && Ready(w, k, env, s, a, GenStmts(w.u, ss, k, env)) && !EvalStmts(w.c, fuel, ss, s).o.Fail?
    ensures var r := EvalStmts(w.c, fuel, ss, s);
      ListSimulates(w, k, env, GenStmts(w.u, ss, k, env).value.env, a, |GenStmts(w.u, ss, k, env).value.code|, r, [], m)
    decreases fuel, ss, 0
  {
    if ss == [] {
      m := MemOf(a);
      RunsRefl(w, a);
      assert Next(a, 0, [], m) == a by { assert a.frame.stack + [] == a.frame.stack; }
      RelOuter(w, s, env.scopes, m);
    } else {
      m := StmtsRun(w, fuel, ss, k, env, s, a);
    }
  }

  lemma {:induction false} StmtsRun(w: World, fuel: nat, ss: seq<Stmt>, k: Option<nat>, env: Env, s: State, a: Config) returns (m: Mem)
    requires ss != []
    requires env.scopes != [] && Ready(w, k, env, s, a, GenStmts(w.u, ss, k, env)) && !EvalStmts(w.c, fuel, ss, s).o.Fail?
    ensures var r := EvalStmts(w.c, fuel, ss, s);
      ListSimulates(w, k, env, GenStmts(w.u, ss, k, env).value.env, a, |GenStmts(w.u, ss, k, env).value.code|, r, [], m)
    decreases fuel, ss, 0, 0
  {
    hide Linked, Good, ScopesRel, GlobalsRel, Segment, Runs, GenStmt, GenStmts, EvalStmt, EvalStmts, Grows, Visible, LabelsOk, At, Does, Fits, Rel, OuterRel;
    StmtsParts(w, fuel, ss, k, env, s);
    var x := GenStmt(w.u, ss[0], k, env).value;
    var r := GenStmts(w.u, ss[1..], k, x.env).value;
    Split(w, a.frame, x.code, r.code);
    FitsEarlier(w, a.frame, x.env, r.env);
    m := SimStmt(w, fuel, ss[0], k, env, s, a);
    var y := EvalStmt(w.c, fuel, ss[0], s);
    if y.o.Norm? {
      var m1 := m;
      DoesNorm(w, k, a, |x.code|, y.o, [], m1);
      ReadyNext(w, k, x.env, x.env, y.st, a, |x.code|, [], m1, r, r.env);
      m := SimStmts(w, fuel, ss[1..], k, x.env, y.st, Next(a, |x.code|, [], m1));
      var rest := EvalStmts(w.c, fuel, ss[1..], y.st);
      InSequence(w, k, a, |x.code|, y.o, [], m1, |r.code|, rest.o, [], m);
      var none: seq<Value> := [];
      assert none + none == none;
      OuterSame(w, rest.st, x.env.scopes, env.scopes, m);
    } else {
      RelOuter(w, y.st, env.scopes, m);
      Abrupt(w, k, a, |x.code|, |x.code + r.code|, y.o, [], [], m);
    }
  }

  // A single statement: after an abrupt end the scopes are those before it.
  ghost predicate StmtSimulates(w: World, k: Option<nat>, env: Env, env': Env, a: Config, n: nat, r: Res, m: Mem) {
    Does(w, k, a, n, r.o, [], m) && Rel(w, r.st, if r.o.Norm? then env'.scopes else env.scopes, m)
  }

  // The expression a statement starts with, and what follows it.
  lemma StmtParts(w: World, fuel: nat, st: Stmt, e: Expr, k: Option<nat>, env: Env, s: State)
    requires env.scopes != [] && GenStmt(w.u, st, k, env).Some? && Good(env)
    requires st == ExprStmt(e) || st == Output(e) || st == Return(Some(e)) || st == Throw(e)
    ensures GenExpr(w.u, e, k, env).Some?
    ensures var x := GenExpr(w.u, e, k, env).value;
      && GenStmt(w.u, st, k, env) == Some(Emitted(x.code + Tail(st), x.env)) && Visible(x.env.scopes) == Visible(env.scopes)
    ensures var x := EvalExpr(w.c, fuel, e, s);
      EvalStmt(w.c, fuel, st, s) == if x.o.Norm? then Finish(w.c.prims, st, x.o.v, x.st) else x
  {
  }

  function Tail(st: Stmt): seq<Instr> {
    match st
    case Output(_) => [Print]
    case Return(_) => [Leave]
    case Throw(_) => [Drop, Unreachable]
    case _ => [Drop]
  }

  function Finish(p: Prims, st: Stmt, v: Value, s: State): Res {
    match st
    case Output(_) => Res(Norm(v), s.(out := s.out + [p.show(v)]))
    case Return(_) => Res(Ret(v), s)
    case Throw(_) => Res(Thrown(v), s)
    case _ => Res(Norm(v), s)
  }

  // What follows the expression of a statement.
  lemma TailRun(w: World, k: Option<nat>, st: Stmt, scopes: seq<Slots>, s: State, a: Config, n: nat, v: Value, m: Mem) returns (m': Mem)
    requires a.Run? && LabelsOk(a.frame, k) && |m.locals| == |a.frame.locals|
    requires At(w, a.frame.(pc := a.frame.pc + n), Tail(st)) && Rel(w, s, scopes, m)
    requires Runs(w, a, Next(a, n, [v], m))
    ensures var r := Finish(w.c.prims, st, v, s);
      Does(w, k, a, n + |Tail(st)|, r.o, [], m') && Rel(w, r.st, scopes, m')
  {
    hide Runs, At, LabelsOk, ScopesRel, GlobalsRel, Visible;
    var b := Next(a, n, [v], m);
    Fetch(w, a.frame.(pc := a.frame.pc + n), Tail(st), 0);
    assert b.frame.stack == a.frame.stack + [v] && b.frame.stack[..|b.frame.stack|-1] == a.frame.stack;
    assert a.frame.stack + [] == a.frame.stack;
    m' := m;
    if st.Output? {
      DoPrint(w, a, b);
      m' := m.(out := m.out + [w.c.prims.show(v)]);
      assert Run(Popped(b).frame, a.callers, m.globals, m'.out) == Next(a, n + 1, [], m');
    } else if st.Return? {
      DoLeave(w, a, b);
    } else {
      DoDrop(w, a, b);
      assert Popped(b) == Next(a, n + 1, [], m);
      if st.Throw? {
        Fetch(w, a.frame.(pc := a.frame.pc + n), Tail(st), 1);
        DoTrap(w, a, Next(a, n + 1, [], m));
      }
    }
  }

  lemma {:induction false} SimTailed(w: World, fuel: nat, st: Stmt, e: Expr, k: Option<nat>, env: Env, s: State, a: Config) returns (m: Mem)
    requires st == ExprStmt(e) || st == Output(e) || st == Return(Some(e)) || st == Throw(e)
    requires env.scopes != [] && Ready(w, k, env, s, a, GenStmt(w.u, st, k, env)) && !EvalStmt(w.c, fuel, st, s).o.Fail?
    ensures var out := GenStmt(w.u, st, k, env).value;
      StmtSimulates(w, k, env, out.env, a, |out.code|, EvalStmt(w.c, fuel, st, s), m)
    decreases fuel, e, 3
  {
    hide Linked, Good, ScopesRel, GlobalsRel, Segment, Runs, GenStmt, GenExpr, EvalStmt, EvalExpr, Grows, Visible, LabelsOk, At, Does, Fits, Rel;
    StmtParts(w, fuel, st, e, k, env, s);
    var x := GenExpr(w.u, e, k, env).value;
    Split(w, a.frame, x.code, Tail(st));
    m := SimExpr(w, fuel, e, k, env, s, a);
    var y := EvalExpr(w.c, fuel, e, s);
    if y.o.Norm? {
      DoesNorm(w, k, a, |x.code|, y.o, [y.o.v], m);
      m := TailRun(w, k, st, env.scopes, y.st, a, |x.code|, y.o.v, m);
      var r := Finish(w.c.prims, st, y.o.v, y.st);
      RelVisible(w, r.st, env.scopes, x.env.scopes, m);
    } else {
      Abrupt(w, k, a, |x.code|, |x.code + Tail(st)|, y.o, [], [], m);
    }
  }

  lemma LetParts(w: World, fuel: nat, st: Stmt, k: Option<nat>, env: Env, s: State)
    requires (st.Let? || st.Assign?) && env.scopes != [] && GenStmt(w.u, st, k, env).Some? && Good(env)
    ensures GenExpr(w.u, st.value, k, env).Some?
    ensures var x := GenExpr(w.u, st.value, k, env).value;
      && x.env.scopes != [] && Good(x.env) && Visible(x.env.scopes) == Visible(env.scopes)
      && var b := if st.Let? then GenBind(w.u, st.name, x.env) else GenWrite(w.u, st.name, x.env);
      && GenStmt(w.u, st, k, env) == Some(Emitted(x.code + b.code, b.env)) && Grows(x.env, b.env)
      && |b.code| >= 1 && (st.Assign? ==> |b.code| == 1 && b.env.scopes == x.env.scopes)
    ensures var x := EvalExpr(w.c, fuel, st.value, s);
      EvalStmt(w.c, fuel, st, s) ==
        if !x.o.Norm? then x
        else if st.Let? then BindVar(w.c, st.name, x.o.v, x.st) else WriteVar(w.c, st.name, x.o.v, x.st)
  {
  }

  lemma {:induction false} SimLet(w: World, fuel: nat, st: Stmt, k: Option<nat>, env: Env, s: State, a: Config) returns (m: Mem)
    requires st.Let? || st.Assign?
    requires env.scopes != [] && Ready(w, k, env, s, a, GenStmt(w.u, st, k, env)) && !EvalStmt(w.c, fuel, st, s).o.Fail?
    ensures var out := GenStmt(w.u, st, k, env).value;
      StmtSimulates(w, k, env, out.env, a, |out.code|, EvalStmt(w.c, fuel, st, s), m)
    decreases fuel, st, 1
  {
    hide Good, ScopesRel, GlobalsRel, Segment, Runs, GenStmt, GenExpr, GenBind, GenWrite, EvalStmt, EvalExpr, Grows, Visible, LabelsOk, At, Does, Fits, Rel, LinkedAt;
    LetParts(w, fuel, st, k, env, s);
    var x := GenExpr(w.u, st.value, k, env).value;
    var b := if st.Let? then GenBind(w.u, st.name, x.env) else GenWrite(w.u, st.name, x.env);
    Split(w, a.frame, x.code, b.code);
    FitsEarlier(w, a.frame, x.env, b.env);
    m := SimExpr(w, fuel, st.value, k, env, s, a);
    var y := EvalExpr(w.c, fuel, st.value, s);
    if y.o.Norm? {
      DoesNorm(w, k, a, |x.code|, y.o, [y.o.v], m);
      m := StoreRun(w, st, k, env, x.env, y.st, a, |x.code|, y.o.v, m);
    } else {
      Abrupt(w, k, a, |x.code|, |x.code + b.code|, y.o, [], [], m);
    }
  }

  // From the value to the variable.
  lemma StoreRun(w: World, st: Stmt, k: Option<nat>, env: Env, env1: Env, s: State, a: Config, n: nat, v: Value, m0: Mem) returns (m: Mem)
    requires st.Let? || st.Assign?
    requires a.Run? && Linked(w) && LabelsOk(a.frame, k) && |m0.locals| == |a.frame.locals|
    requires env1.scopes != [] && Good(env1) && Visible(env1.scopes) == Visible(env.scopes)
    requires Rel(w, s, env.scopes, m0) && Runs(w, a, Next(a, n, [v], m0))
    requires var b := if st.Let? then GenBind(w.u, st.name, env1) else GenWrite(w.u, st.name, env1);
      && At(w, a.frame.(pc := a.frame.pc + n), b.code) && Fits(w, a.frame, b.env) && |b.code| >= 1
      && (st.Assign? ==> |b.code| == 1 && b.env.scopes == env1.scopes)
    requires var r := if st.Let? then BindVar(w.c, st.name, v, s) else WriteVar(w.c, st.name, v, s);
      !r.o.Fail?
    ensures var b := if st.Let? then GenBind(w.u, st.name, env1) else GenWrite(w.u, st.name, env1);
      var r := if st.Let? then BindVar(w.c, st.name, v, s) else WriteVar(w.c, st.name, v, s);
      r.o.Norm? && Does(w, k, a, n + |b.code|, r.o, [], m) && Rel(w, r.st, b.env.scopes, m)
  {
    hide Good, ScopesRel, GlobalsRel, Segment, Runs, GenBind, GenWrite, Grows, Visible, LabelsOk, At, Does, Rel, LinkedAt;
    var c := Next(a, n, [v], m0);
    assert Top(c) == v;
    var code := (if st.Let? then GenBind(w.u, st.name, env1) else GenWrite(w.u, st.name, env1)).code;
    AtMoved(w, a.frame.(pc := a.frame.pc + n), c.frame, code);
    RelVisible(w, s, env.scopes, env1.scopes, m0);
    if st.Let? {
      m := SimBind(w, st.name, env1, s, a, c);
      PopNext(a, n, v, m0, |code| - 1, m);
    } else {
      m := SimWrite(w, st.name, env1, s, a, c);
      PopNext(a, n, v, m0, 0, m);
    }
    DoesNorm(w, k, a, n + |code|, Norm(v), [], m);
  }

  lemma PopNext(a: Config, n: nat, v: Value, m0: Mem, more: nat, m: Mem)
    requires a.Run?
    ensures Next(Popped(Next(a, n, [v], m0)), more, [], m) == Next(a, n + 1 + more, [], m)
  {
    var b := Next(a, n, [v], m0);
    assert b.frame.stack[..|b.frame.stack|-1] == a.frame.stack;
  }

  // ---- loops ----

  lemma WhileParts(w: World, fuel: nat, st: Stmt, k: Option<nat>, env: Env, s: State)
    requires st.While? && env.scopes != [] && GenStmt(w.u, st, k, env).Some? && Good(env) && w.c.prims.Valid() && w.c.mode.Ir?
    ensures GenExpr(w.u, st.cond, Some(0), env).Some?
    ensures var x := GenExpr(w.u, st.cond, Some(0), env).value;
      && x.env.scopes != [] && Good(x.env) && Visible(x.env.scopes) == Visible(env.scopes)
      && GenBody(w.u, st.body, Some(0), x.env).Some?
      && var b := GenBody(w.u, st.body, Some(0), x.env).value;
      && GenStmt(w.u, st, k, env) == Some(Emitted(InLoop(x.code + [BoolNot, BrIf(1)] + b.code + [Br(0)]), b.env))
      && Grows(x.env, b.env) && Grows(b.env, b.env) && Visible(b.env.scopes) == Visible(env.scopes)
    ensures var r := EvalStmt(w.c, fuel, st, s);
      var x := EvalExpr(w.c, fuel, st.cond, s);
      !r.o.Fail? ==>
        && fuel > 0 && !x.o.Fail?
        && (x.o.Brk? ==> r == Res(Norm(Null), x.st))
        && (x.o.Cont? ==> r == EvalStmt(w.c, fuel - 1, st, x.st))
        && (x.o.Ret? || x.o.Thrown? ==> r == x)
        && (x.o.Norm? ==> x.o.v.Bool? && w.c.prims.truthy(x.o.v) == x.o.v.b)
        && (x.o.Norm? && !x.o.v.b ==> r == Res(Norm(Null), x.st))
        && (x.o.Norm? && x.o.v.b ==>
              var b := EvalBlock(w.c, fuel, st.body, x.st);
              r == if b.o.Norm? || b.o.Cont? then EvalStmt(w.c, fuel - 1, st, b.st)
                   else if b.o.Brk? then Res(Norm(Null), b.st) else b)
  {
  }

  // Offsets of the pieces of a while loop.
  lemma WhileLayout(w: World, a: Config, x: seq<Instr>, b: seq<Instr>)
    requires a.Run? && At(w, a.frame, InLoop(x + [BoolNot, BrIf(1)] + b + [Br(0)]))
    ensures At(w, a.frame.(pc := a.frame.pc + 2), x)
    ensures OpAt(w, a, 2 + |x|, BoolNot) && OpAt(w, a, 3 + |x|, BrIf(1))
    ensures At(w, a.frame.(pc := a.frame.pc + 4 + |x|), b)
    ensures OpAt(w, a, 4 + |x| + |b|, Br(0))
  {
    hide Segment, InLoop;
    var body := x + [BoolNot, BrIf(1)] + b + [Br(0)];
    LoopParts(w, a, body);
    var f := a.frame.(pc := a.frame.pc + 2);
    Split(w, f, x + [BoolNot, BrIf(1)] + b, [Br(0)]);
    Fetch(w, f.(pc := f.pc + |x + [BoolNot, BrIf(1)] + b|), [Br(0)], 0);
    Split3(w, f, x, [BoolNot, BrIf(1)], b);
    Fetch(w, f.(pc := f.pc + |x|), [BoolNot, BrIf(1)], 0);
    Fetch(w, f.(pc := f.pc + |x|), [BoolNot, BrIf(1)], 1);
  }

  // A loop statement with code `InLoop(body)` whose head the machine has reached with memory `m0`.
  ghost predicate AtHead(w: World, k: Option<nat>, env: Env, s: State, a: Config, body: seq<Instr>, final: Env, m0: Mem) {
    && a.Run? && Linked(w) && w.c.mode.Ir? && w.c.prims.Valid() && env.scopes != [] && Good(env) && LabelsOk(a.frame, k)
    && At(w, a.frame, InLoop(body)) && Fits(w, a.frame, final) && |m0.locals| == |a.frame.locals|
    && Rel(w, s, env.scopes, m0) && Runs(w, a, Head(a, body, m0))
  }

  // A piece of the loop is ready to run inside an iteration.
  lemma ReadyIter(w: World, env: Env, env1: Env, s: State, a: Config, body: seq<Instr>, off: nat, out: Emitted, final: Env, m: Mem)
    requires a.Run? && Linked(w) && w.c.mode.Ir? && w.c.prims.Valid()
    requires Fits(w, a.frame, final) && |m.locals| == |a.frame.locals| && Grows(out.env, final)
    requires At(w, a.frame.(pc := a.frame.pc + off), out.code)
    requires env1.scopes != [] && Good(env1) && Visible(env1.scopes) == Visible(env.scopes) && Rel(w, s, env.scopes, m)
    ensures Ready(w, Some(0), env1, s, Within(a, off, LoopLabels(a, body), [], m), Some(out))
  {
    hide Linked, Good, ScopesRel, GlobalsRel, Segment, LabelsOk, Visible, At, Fits, Rel, Grows;
    var b := Within(a, off, LoopLabels(a, body), [], m);
    IterLabels(a, body, off, m);
    AtMoved(w, a.frame.(pc := a.frame.pc + off), b.frame, out.code);
    ReadyAt(w, Some(0), env, env1, s, b, out, a.frame, final);
  }

  lemma {:induction false} WhileFrom(w: World, fuel: nat, st: Stmt, k: Option<nat>, env: Env, s: State, a: Config, m0: Mem) returns (m: Mem)
    requires st.While? && env.scopes != [] && GenStmt(w.u, st, k, env).Some? && Good(env) && w.c.prims.Valid() && w.c.mode.Ir?
    requires GenExpr(w.u, st.cond, Some(0), env).Some?
    requires var x := GenExpr(w.u, st.cond, Some(0), env).value;
      && x.env.scopes != [] && GenBody(w.u, st.body, Some(0), x.env).Some?
      && var b := GenBody(w.u, st.body, Some(0), x.env).value;
      AtHead(w, k, env, s, a, x.code + [BoolNot, BrIf(1)] + b.code + [Br(0)], b.env, m0)
    requires !EvalStmt(w.c, fuel, st, s).o.Fail?
    ensures var r := EvalStmt(w.c, fuel, st, s);
      Does(w, k, a, |GenStmt(w.u, st, k, env).value.code|, r.o, [], m) && Rel(w, r.st, env.scopes, m)
    decreases fuel, st, 0
  {
    hide Linked, Good, ScopesRel, GlobalsRel, Segment, Runs, GenStmt, GenExpr, GenBody, EvalStmt, EvalExpr, EvalBlock, Grows, Visible, LabelsOk, At, Does, Fits, Rel, InLoop;
    WhileParts(w, fuel, st, k, env, s);
    var x := GenExpr(w.u, st.cond, Some(0), env).value;
    var b := GenBody(w.u, st.body, Some(0), x.env).value;
    var body := x.code + [BoolNot, BrIf(1)] + b.code + [Br(0)];
    var ls := LoopLabels(a, body);
    WhileLayout(w, a, x.code, b.code);
    LoopIterate(w, a, body, m0);
    ReadyIter(w, env, env, s, a, body, 2, x, b.env, m0);
    m := SimExpr(w, fuel, st.cond, Some(0), env, s, Iter(a, body, m0));
    DoesMem(w, Some(0), Iter(a, body, m0), |x.code|, EvalExpr(w.c, fuel, st.cond, s).o, Vals(EvalExpr(w.c, fuel, st.cond, s).o), m);
    var c := EvalExpr(w.c, fuel, st.cond, s);
    if c.o.Norm? {
      IterNorm(w, a, body, 2, m0, |x.code|, c.o, [c.o.v], m);
      LoopTest(w, a, body, 2 + |x.code|, c.o.v, m);
      if c.o.v.b {
        m := WhileBody(w, fuel, st, k, env, c.st, a, m);
      } else {
        LoopExit(w, k, a, body, m);
      }
    } else if c.o.Brk? {
      IterJump(w, a, body, 2, m0, |x.code|, c.o, [], m);
      LoopExit(w, k, a, body, m);
    } else if c.o.Cont? {
      IterJump(w, a, body, 2, m0, |x.code|, c.o, [], m);
      m := WhileFrom(w, fuel - 1, st, k, env, c.st, a, m);
    } else {
      IterLeave(w, k, a, body, 2, m0, |x.code|, c.o, [], m);
    }
  }

  // A fragment of an iteration has ended normally.
  lemma IterNorm(w: World, a: Config, body: seq<Instr>, off: nat, m0: Mem, n: nat, o: Outcome, vals: seq<Value>, m: Mem)
    requires a.Run? && o.Norm? && Runs(w, a, Within(a, off, LoopLabels(a, body), [], m0))
    requires Does(w, Some(0), Within(a, off, LoopLabels(a, body), [], m0), n, o, vals, m)
    ensures Runs(w, a, Within(a, off + n, LoopLabels(a, body), vals, m))
  {
    hide Runs, LabelsOk, Does;
    var ls := LoopLabels(a, body);
    var b := Within(a, off, ls, [], m0);
    DoesNorm(w, Some(0), b, n, o, vals, m);
    RunsTrans(w, a, b, Next(b, n, vals, m));
    NextWithin(a, off, ls, [], m0, n, vals, m);
    assert [] + vals == vals;
  }

  lemma DoesMem(w: World, k: Option<nat>, a: Config, n: nat, o: Outcome, vals: seq<Value>, m: Mem)
    requires Does(w, k, a, n, o, vals, m)
    ensures |m.locals| == |a.frame.locals| && !o.Fail?
  {
  }

  // The body of a while loop, once the condition was true.
  lemma {:induction false} WhileBody(w: World, fuel: nat, st: Stmt, k: Option<nat>, env: Env, s: State, a: Config, m0: Mem) returns (m: Mem)
    requires st.While? && fuel > 0 && env.scopes != [] && GenStmt(w.u, st, k, env).Some? && Good(env) && w.c.prims.Valid()
    requires GenExpr(w.u, st.cond, Some(0), env).Some? && GenExpr(w.u, st.cond, Some(0), env).value.env.scopes != []
    requires var x := GenExpr(w.u, st.cond, Some(0), env).value;
      && GenBody(w.u, st.body, Some(0), x.env).Some?
      && var b := GenBody(w.u, st.body, Some(0), x.env).value;
      var body := x.code + [BoolNot, BrIf(1)] + b.code + [Br(0)];
      && a.Run? && Linked(w) && w.c.mode.Ir? && LabelsOk(a.frame, k)
      && At(w, a.frame, InLoop(body)) && Fits(w, a.frame, b.env) && |m0.locals| == |a.frame.locals|
      && Rel(w, s, env.scopes, m0) && Runs(w, a, Within(a, 4 + |x.code|, LoopLabels(a, body), [], m0))
    requires var b := EvalBlock(w.c, fuel, st.body, s);
      if b.o.Norm? || b.o.Cont? then !EvalStmt(w.c, fuel - 1, st, b.st).o.Fail? else !b.o.Fail?
    ensures var b := EvalBlock(w.c, fuel, st.body, s);
      var r := if b.o.Norm? || b.o.Cont? then EvalStmt(w.c, fuel - 1, st, b.st)
               else if b.o.Brk? then Res(Norm(Null), b.st) else b;
      Does(w, k, a, |GenStmt(w.u, st, k, env).value.code|, r.o, [], m) && Rel(w, r.st, env.scopes, m)
    decreases fuel, st, 0, 0
  {
    hide Linked, Good, ScopesRel, GlobalsRel, Segment, Runs, GenStmt, GenExpr, GenBody, EvalStmt, EvalExpr, EvalBlock, Grows, Visible, LabelsOk, At, Does, Fits, Rel, InLoop;
    WhileParts(w, fuel, st, k, env, s);
    var x := GenExpr(w.u, st.cond, Some(0), env).value;
    var b := GenBody(w.u, st.body, Some(0), x.env).value;
    var body := x.code + [BoolNot, BrIf(1)] + b.code + [Br(0)];
    var off := 4 + |x.code|;
    WhileLayout(w, a, x.code, b.code);
    ReadyIter(w, env, x.env, s, a, body, off, b, b.env, m0);
    m := SimBody(w, fuel, st.body, Some(0), x.env, s, Within(a, off, LoopLabels(a, body), [], m0));
    var r := EvalBlock(w.c, fuel, st.body, s);
    RelVisible(w, r.st, x.env.scopes, env.scopes, m);
    DoesMem(w, Some(0), Within(a, off, LoopLabels(a, body), [], m0), |b.code|, r.o, [], m);
    if r.o.Norm? {
      IterNorm(w, a, body, off, m0, |b.code|, r.o, [], m);
      LoopBack(w, a, body, off + |b.code|, m);
      m := WhileFrom(w, fuel - 1, st, k, env, r.st, a, m);
    } else if r.o.Brk? {
      IterJump(w, a, body, off, m0, |b.code|, r.o, [], m);
      LoopExit(w, k, a, body, m);
    } else if r.o.Cont? {
      IterJump(w, a, body, off, m0, |b.code|, r.o, [], m);
      m := WhileFrom(w, fuel - 1, st, k, env, r.st, a, m);
    } else {
      IterLeave(w, k, a, body, off, m0, |b.code|, r.o, [], m);
    }
  }

  lemma DoWhileParts(w: World, fuel: nat, st: Stmt, k: Option<nat>, env: Env, s: State)
    requires st.DoWhile? && env.scopes != [] && GenStmt(w.u, st, k, env).Some? && Good(env) && w.c.prims.Valid() && w.c.mode.Ir?
    ensures GenBody(w.u, st.body, Some(0), env).Some?
    ensures var b := GenBody(w.u, st.body, Some(0), env).value;
      && b.env.scopes != [] && Good(b.env) && Visible(b.env.scopes) == Visible(env.scopes)
      && GenExpr(w.u, st.cond, Some(0), b.env).Some?
      && var x := GenExpr(w.u, st.cond, Some(0), b.env).value;
      && GenStmt(w.u, st, k, env) == Some(Emitted(InLoop(b.code + x.code + [BoolNot, BrIf(1), Br(0)]), x.env))
      && Grows(b.env, x.env) && Grows(x.env, x.env) && Visible(x.env.scopes) == Visible(env.scopes)
    ensures var r := EvalStmt(w.c, fuel, st, s);
      var b := EvalBlock(w.c, fuel, st.body, s);
      !r.o.Fail? ==>
        && fuel > 0 && !b.o.Fail?
        && (b.o.Brk? ==> r == Res(Norm(Null), b.st))
        && (b.o.Cont? ==> r == EvalStmt(w.c, fuel - 1, st, b.st))
        && (b.o.Ret? || b.o.Thrown? ==> r == b)
        && (b.o.Norm? ==>
              var x := EvalExpr(w.c, fuel, st.cond, b.st);
              && !x.o.Fail? && (x.o.Norm? ==> x.o.v.Bool? && w.c.prims.truthy(x.o.v) == x.o.v.b)
              && r == if x.o.Brk? then Res(Norm(Null), x.st)
                      else if x.o.Cont? then EvalStmt(w.c, fuel - 1, st, x.st)
                      else if !x.o.Norm? then x
                      else if x.o.v.b then EvalStmt(w.c, fuel - 1, st, x.st) else Res(Norm(Null), x.st))
  {
  }

  // Offsets of the pieces of a do-while loop.
  lemma DoWhileLayout(w: World, a: Config, b: seq<Instr>, x: seq<Instr>)
    requires a.Run? && At(w, a.frame, InLoop(b + x + [BoolNot, BrIf(1), Br(0)]))
    ensures At(w, a.frame.(pc := a.frame.pc + 2), b)
    ensures At(w, a.frame.(pc := a.frame.pc + 2 + |b|), x)
    ensures OpAt(w, a, 2 + |b| + |x|, BoolNot) && OpAt(w, a, 3 + |b| + |x|, BrIf(1)) && OpAt(w, a, 4 + |b| + |x|, Br(0))
  {
    hide Segment, InLoop;
    var last := [BoolNot, BrIf(1), Br(0)];
    LoopParts(w, a, b + x + last);
    var f := a.frame.(pc := a.frame.pc + 2);
    Split3(w, f, b, x, last);
    Fetch(w, f.(pc := f.pc + |b| + |x|), last, 0);
    Fetch(w, f.(pc := f.pc + |b| + |x|), last, 1);
    Fetch(w, f.(pc := f.pc + |b| + |x|), last, 2);
  }

  lemma {:induction false} DoWhileFrom(w: World, fuel: nat, st: Stmt, k: Option<nat>, env: Env, s: State, a: Config, m0: Mem) returns (m: Mem)
    requires st.DoWhile? && env.scopes != [] && GenStmt(w.u, st, k, env).Some? && Good(env) && w.c.prims.Valid() && w.c.mode.Ir?
    requires GenBody(w.u, st.body, Some(0), env).Some?
    requires var b := GenBody(w.u, st.body, Some(0), env).value;
      && b.env.scopes != [] && GenExpr(w.u, st.cond, Some(0), b.env).Some?
      && var x := GenExpr(w.u, st.cond, Some(0), b.env).value;
      AtHead(w, k, env, s, a, b.code + x.code + [BoolNot, BrIf(1), Br(0)], x.env, m0)
    requires !EvalStmt(w.c, fuel, st, s).o.Fail?
    ensures var r := EvalStmt(w.c, fuel, st, s);
      Does(w, k, a, |GenStmt(w.u, st, k, env).value.code|, r.o, [], m) && Rel(w, r.st, env.scopes, m)
    decreases fuel, st, 0
  {
    hide Linked, Good, ScopesRel, GlobalsRel, Segment, Runs, GenStmt, GenExpr, GenBody, EvalStmt, EvalExpr, EvalBlock, Grows, Visible, LabelsOk, At, Does, Fits, Rel, InLoop;
    DoWhileParts(w, fuel, st, k, env, s);
    var b := GenBody(w.u, st.body, Some(0), env).value;
    var x := GenExpr(w.u, st.cond, Some(0), b.env).value;
    var body := b.code + x.code + [BoolNot, BrIf(1), Br(0)];
    DoWhileLayout(w, a, b.code, x.code);
    LoopIterate(w, a, body, m0);
    ReadyIter(w, env, env, s, a, body, 2, b, x.env, m0);
    m := SimBody(w, fuel, st.body, Some(0), env, s, Iter(a, body, m0));
    var r := EvalBlock(w.c, fuel, st.body, s);
    DoesMem(w, Some(0), Iter(a, body, m0), |b.code|, r.o, [], m);
    if r.o.Norm? {
      IterNorm(w, a, body, 2, m0, |b.code|, r.o, [], m);
      m := DoWhileCond(w, fuel, st, k, env, r.st, a, m);
    } else if r.o.Brk? {
      IterJump(w, a, body, 2, m0, |b.code|, r.o, [], m);
      LoopExit(w, k, a, body, m);
    } else if r.o.Cont? {
      IterJump(w, a, body, 2, m0, |b.code|, r.o, [], m);
      m := DoWhileFrom(w, fuel - 1, st, k, env, r.st, a, m);
    } else {
      IterLeave(w, k, a, body, 2, m0, |b.code|, r.o, [], m);
    }
  }

  // The condition of a do-while loop, once the body ended normally.
  lemma {:induction false} DoWhileCond(w: World, fuel: nat, st: Stmt, k: Option<nat>, env: Env, s: State, a: Config, m0: Mem) returns (m: Mem)
    requires st.DoWhile? && fuel > 0 && env.scopes != [] && GenStmt(w.u, st, k, env).Some? && Good(env) && w.c.prims.Valid() && w.c.mode.Ir?
    requires GenBody(w.u, st.body, Some(0), env).Some? && GenBody(w.u, st.body, Some(0), env).value.env.scopes != []
    requires var b := GenBody(w.u, st.body, Some(0), env).value;
      && GenExpr(w.u, st.cond, Some(0), b.env).Some?
      && var x := GenExpr(w.u, st.cond, Some(0), b.env).value;
      var body := b.code + x.code + [BoolNot, BrIf(1), Br(0)];
      && a.Run? && Linked(w) && LabelsOk(a.frame, k)
      && At(w, a.frame, InLoop(body)) && Fits(w, a.frame, x.env) && |m0.locals| == |a.frame.locals|
      && Rel(w, s, env.scopes, m0) && Runs(w, a, Within(a, 2 + |b.code|, LoopLabels(a, body), [], m0))
    requires var x := EvalExpr(w.c, fuel, st.cond, s);
      && !x.o.Fail? && (x.o.Norm? ==> x.o.v.Bool? && w.c.prims.truthy(x.o.v) == x.o.v.b)
      && (x.o.Cont? || (x.o.Norm? && x.o.v.b) ==> !EvalStmt(w.c, fuel - 1, st, x.st).o.Fail?)
    ensures var x := EvalExpr(w.c, fuel, st.cond, s);
      var r := if x.o.Brk? then Res(Norm(Null), x.st)
               else if x.o.Cont? then EvalStmt(w.c, fuel - 1, st, x.st)
               else if !x.o.Norm? then x
               else if x.o.v.b then EvalStmt(w.c, fuel - 1, st, x.st) else Res(Norm(Null), x.st);
      Does(w, k, a, |GenStmt(w.u, st, k, env).value.code|, r.o, [], m) && Rel(w, r.st, env.scopes, m)
    decreases fuel, st, 0, 0
  {
    hide Linked, Good, ScopesRel, GlobalsRel, Segment, Runs, GenStmt, GenExpr, GenBody, EvalStmt, EvalExpr, EvalBlock, Grows, Visible, LabelsOk, At, Does, Fits, Rel, InLoop;
    DoWhileParts(w, fuel, st, k, env, s);
    var b := GenBody(w.u, st.body, Some(0), env).value;
    var x := GenExpr(w.u, st.cond, Some(0), b.env).value;
    var body := b.code + x.code + [BoolNot, BrIf(1), Br(0)];
    var off := 2 + |b.code|;
    DoWhileLayout(w, a, b.code, x.code);
    ReadyIter(w, env, b.env, s, a, body, off, x, x.env, m0);
    m := SimExpr(w, fuel, st.cond, Some(0), b.env, s, Within(a, off, LoopLabels(a, body), [], m0));
    var c := EvalExpr(w.c, fuel, st.cond, s);
    RelVisible(w, c.st, b.env.scopes, env.scopes, m);
    DoesMem(w, Some(0), Within(a, off, LoopLabels(a, body), [], m0), |x.code|, c.o, Vals(c.o), m);
    if c.o.Norm? {
      IterNorm(w, a, body, off, m0, |x.code|, c.o, [c.o.v], m);
      LoopTest(w, a, body, off + |x.code|, c.o.v, m);
      if c.o.v.b {
        LoopBack(w, a, body, off + |x.code| + 2, m);
        m := DoWhileFrom(w, fuel - 1, st, k, env, c.st, a, m);
      } else {
        LoopExit(w, k, a, body, m);
      }
    } else if c.o.Brk? {
      IterJump(w, a, body, off, m0, |x.code|, c.o, [], m);
      LoopExit(w, k, a, body, m);
    } else if c.o.Cont? {
      IterJump(w, a, body, off, m0, |x.code|, c.o, [], m);
      m := DoWhileFrom(w, fuel - 1, st, k, env, c.st, a, m);
    } else {
      IterLeave(w, k, a, body, off, m0, |x.code|, c.o, [], m);
    }
  }

  lemma LoopExprParts(w: World, fuel: nat, e: Expr, k: Option<nat>, env: Env, s: State)
    requires e.Loop? && env.scopes != [] && GenExpr(w.u, e, k, env).Some? && Good(env)
    ensures GenBlock(w.u, e.body, Some(0), env).Some?
    ensures var b := GenBlock(w.u, e.body, Some(0), env).value;
      && GenExpr(w.u, e, k, env) == Some(Emitted(InLoop(b.code + [Drop, Br(0)]) + [PushNull], b.env))
      && Grows(b.env, b.env) && Visible(b.env.scopes) == Visible(env.scopes)
    ensures var r := EvalExpr(w.c, fuel, e, s);
      var b := EvalBlock(w.c, fuel, e.body, s);
      !r.o.Fail? ==>
        && fuel > 0 && !b.o.Fail?
        && r == if b.o.Norm? || b.o.Cont? then EvalExpr(w.c, fuel - 1, e, b.st)
                else if b.o.Brk? then Res(Norm(Null), b.st) else b
  {
  }

  // The loop itself; its value is pushed after it.
  lemma {:induction false} LoopFrom(w: World, fuel: nat, e: Expr, k: Option<nat>, env: Env, s: State, a: Config, m0: Mem) returns (m: Mem)
    requires e.Loop? && env.scopes != [] && GenExpr(w.u, e, k, env).Some? && Good(env)
    requires GenBlock(w.u, e.body, Some(0), env).Some?
    requires var b := GenBlock(w.u, e.body, Some(0), env).value;
      AtHead(w, k, env, s, a, b.code + [Drop, Br(0)], b.env, m0)
    requires !EvalExpr(w.c, fuel, e, s).o.Fail?
    ensures var r := EvalExpr(w.c, fuel, e, s);
      var b := GenBlock(w.u, e.body, Some(0), env).value;
      && Does(w, k, a, |InLoop(b.code + [Drop, Br(0)])|, r.o, [], m) && Rel(w, r.st, env.scopes, m)
      && (r.o.Norm? ==> r.o == Norm(Null))
    decreases fuel, e, 0
  {
    hide Linked, Good, ScopesRel, GlobalsRel, Segment, Runs, GenExpr, GenBlock, EvalExpr, EvalBlock, Grows, Visible, LabelsOk, At, Does, Fits, Rel, InLoop;
    LoopExprParts(w, fuel, e, k, env, s);
    var b := GenBlock(w.u, e.body, Some(0), env).value;
    var last := [Drop, Br(0)];
    var body := b.code + last;
    var ls := LoopLabels(a, body);
    LoopParts(w, a, body);
    Split(w, a.frame.(pc := a.frame.pc + 2), b.code, last);
    LoopIterate(w, a, body, m0);
    ReadyIter(w, env, env, s, a, body, 2, b, b.env, m0);
    m := SimBlock(w, fuel, e.body, Some(0), env, s, Iter(a, body, m0));
    var r := EvalBlock(w.c, fuel, e.body, s);
    DoesMem(w, Some(0), Iter(a, body, m0), |b.code|, r.o, Vals(r.o), m);
    if r.o.Norm? {
      IterNorm(w, a, body, 2, m0, |b.code|, r.o, [r.o.v], m);
      var f := a.frame.(pc := a.frame.pc + 2);
      Fetch(w, f.(pc := f.pc + |b.code|), last, 0);
      Fetch(w, f.(pc := f.pc + |b.code|), last, 1);
      assert [] + [r.o.v] == [r.o.v];
      GoDrop(w, a, 2 + |b.code|, ls, [], r.o.v, m);
      LoopBack(w, a, body, 3 + |b.code|, m);
      m := LoopFrom(w, fuel - 1, e, k, env, r.st, a, m);
    } else if r.o.Brk? {
      IterJump(w, a, body, 2, m0, |b.code|, r.o, [], m);
      LoopExit(w, k, a, body, m);
    } else if r.o.Cont? {
      IterJump(w, a, body, 2, m0, |b.code|, r.o, [], m);
      m := LoopFrom(w, fuel - 1, e, k, env, r.st, a, m);
    } else {
      IterLeave(w, k, a, body, 2, m0, |b.code|, r.o, [], m);
    }
  }

  lemma {:induction false} SimLoop(w: World, fuel: nat, e: Expr, k: Option<nat>, env: Env, s: State, a: Config) returns (m: Mem)
    requires e.Loop? && env.scopes != []
    requires Ready(w, k, env, s, a, GenExpr(w.u, e, k, env)) && !EvalExpr(w.c, fuel, e, s).o.Fail?
    ensures var r := EvalExpr(w.c, fuel, e, s);
      Simulates(w, k, env, a, |GenExpr(w.u, e, k, env).value.code|, r, Vals(r.o), m)
    decreases fuel, e, 1
  {
    hide Linked, Good, ScopesRel, GlobalsRel, Segment, Runs, GenExpr, GenBlock, EvalExpr, EvalBlock, Grows, Visible, LabelsOk, At, Does, Fits, InLoop, Balanced;
    LoopExprParts(w, fuel, e, k, env, s);
    var b := GenBlock(w.u, e.body, Some(0), env).value;
    var body := b.code + [Drop, Br(0)];
    Split(w, a.frame, InLoop(body), [PushNull]);
    BlockBalanced(w.u, e.body, Some(0), env);
    PlainConcat(b.code, [Drop, Br(0)]);
    LoopEnter(w, a, body);
    m := LoopFrom(w, fuel, e, k, env, s, a, MemOf(a));
    var r := EvalExpr(w.c, fuel, e, s);
    var n := |InLoop(body)|;
    if r.o.Norm? {
      DoesNorm(w, k, a, n, r.o, [], m);
      Fetch(w, a.frame.(pc := a.frame.pc + n), [PushNull], 0);
      WithinNext(a, n, [], m);
      GoPush(w, a, n, [], [], m, PushNull);
      assert [] + [Null] == [Null];
      WithinNext(a, n + 1, [Null], m);
      DoesNorm(w, k, a, n + 1, r.o, [Null], m);
    } else {
      Abrupt(w, k, a, n, |InLoop(body) + [PushNull]|, r.o, [], [], m);
    }
  }

  lemma {:induction false} SimLoopStmt(w: World, fuel: nat, st: Stmt, k: Option<nat>, env: Env, s: State, a: Config) returns (m: Mem)
    requires (st.While? || st.DoWhile?) && env.scopes != []
    requires Ready(w, k, env, s, a, GenStmt(w.u, st, k, env)) && !EvalStmt(w.c, fuel, st, s).o.Fail?
    ensures var out := GenStmt(w.u, st, k, env).value;
      StmtSimulates(w, k, env, out.env, a, |out.code|, EvalStmt(w.c, fuel, st, s), m)
    decreases fuel, st, 1
  {
    hide Linked, Good, ScopesRel, GlobalsRel, Segment, Runs, GenExpr, GenBody, GenStmt, EvalExpr, EvalBlock, EvalStmt, Grows, Visible, LabelsOk, At, Does, Fits, Rel, InLoop, Balanced;
    var r := EvalStmt(w.c, fuel, st, s);
    if st.While? {
      WhileParts(w, fuel, st, k, env, s);
      var x := GenExpr(w.u, st.cond, Some(0), env).value;
      var b := GenBody(w.u, st.body, Some(0), x.env).value;
      WhileBodyBalanced(w.u, st.cond, st.body, env);
      LoopEnter(w, a, x.code + [BoolNot, BrIf(1)] + b.code + [Br(0)]);
      m := WhileFrom(w, fuel, st, k, env, s, a, MemOf(a));
      RelVisible(w, r.st, env.scopes, b.env.scopes, m);
    } else {
      DoWhileParts(w, fuel, st, k, env, s);
      var b := GenBody(w.u, st.body, Some(0), env).value;
      var x := GenExpr(w.u, st.cond, Some(0), b.env).value;
      DoWhileBodyBalanced(w.u, st.cond, st.body, env);
      LoopEnter(w, a, b.code + x.code + [BoolNot, BrIf(1), Br(0)]);
      m := DoWhileFrom(w, fuel, st, k, env, s, a, MemOf(a));
      RelVisible(w, r.st, env.scopes, x.env.scopes, m);
    }
  }

  lemma WhileBodyBalanced(u: Unit, cond: Expr, bl: Block, env: Env)
    requires env.scopes != [] && GenExpr(u, cond, Some(0), env).Some?
    requires GenBody(u, bl, Some(0), GenExpr(u, cond, Some(0), env).value.env).Some?
    ensures var x := GenExpr(u, cond, Some(0), env).value;
      var b := GenBody(u, bl, Some(0), x.env).value;
      Balanced(x.code + [BoolNot, BrIf(1)] + b.code + [Br(0)])
  {
    hide Balanced;
    var x := GenExpr(u, cond, Some(0), env).value;
    var b := GenBody(u, bl, Some(0), x.env).value;
    ThenPlain(u, cond, Some(0), env, [BoolNot, BrIf(1)]);
    BlockBalanced(u, bl, Some(0), x.env);
    BalancedConcat(x.code + [BoolNot, BrIf(1)], b.code);
    PlainConcat(x.code + [BoolNot, BrIf(1)] + b.code, [Br(0)]);
  }

  lemma DoWhileBodyBalanced(u: Unit, cond: Expr, bl: Block, env: Env)
    requires GenBody(u, bl, Some(0), env).Some? && GenBody(u, bl, Some(0), env).value.env.scopes != []
    requires GenExpr(u, cond, Some(0), GenBody(u, bl, Some(0), env).value.env).Some?
    ensures var b := GenBody(u, bl, Some(0), env).value;
      var x := GenExpr(u, cond, Some(0), b.env).value;
      Balanced(b.code + x.code + [BoolNot, BrIf(1), Br(0)])
  {
    hide Balanced;
    var b := GenBody(u, bl, Some(0), env).value;
    var x := GenExpr(u, cond, Some(0), b.env).value;
    BlockBalanced(u, bl, Some(0), env);
    ExprBalanced(u, cond, Some(0), b.env);
    BalancedConcat(b.code, x.code);
    PlainConcat(b.code + x.code, [BoolNot, BrIf(1), Br(0)]);
  }

  // `break` and `continue`.
  lemma SimJump(w: World, fuel: nat, st: Stmt, k: Option<nat>, env: Env, s: State, a: Config) returns (m: Mem)
    requires (st.Break? || st.Continue?) && env.scopes != []
    requires Ready(w, k, env, s, a, GenStmt(w.u, st, k, env))
    ensures var out := GenStmt(w.u, st, k, env).value;
      StmtSimulates(w, k, env, out.env, a, |out.code|, EvalStmt(w.c, fuel, st, s), m)
  {
    hide Linked, Good, ScopesRel, GlobalsRel, Runs, Visible;
    m := MemOf(a);
    var l := if st.Break? then k.value + 1 else k.value;
    assert GenStmt(w.u, st, k, env).value.code == [Br(l)];
    Fetch(w, a.frame, [Br(l)], 0);
    RunsRefl(w, a);
    assert a.frame.(locals := m.locals) == a.frame;
    DoBr(w, a, a, l);
  }

  lemma SimEmpty(w: World, fuel: nat, st: Stmt, k: Option<nat>, env: Env, s: State, a: Config) returns (m: Mem)
    requires (st.FnDef? || st == Return(None)) && env.scopes != []
    requires Ready(w, k, env, s, a, GenStmt(w.u, st, k, env))
    ensures var out := GenStmt(w.u, st, k, env).value;
      StmtSimulates(w, k, env, out.env, a, |out.code|, EvalStmt(w.c, fuel, st, s), m)
  {
    hide Linked, Good, ScopesRel, GlobalsRel, Segment, Runs, LabelsOk, Visible, At;
    m := MemOf(a);
    RunsRefl(w, a);
    assert a.frame.stack + [] == a.frame.stack && a.frame.labels + [] == a.frame.labels;
    if st.FnDef? {
      assert Next(a, 0, [], m) == a;
    } else {
      Fetch(w, a.frame, [PushNull, Leave], 0);
      Fetch(w, a.frame, [PushNull, Leave], 1);
      DoPush(w, a, a, PushNull);
      DoLeave(w, a, Push(a, Null));
    }
  }

  lemma {:induction false} SimStmt(w: World, fuel: nat, st: Stmt, k: Option<nat>, env: Env, s: State, a: Config) returns (m: Mem)
    requires env.scopes != [] && Ready(w, k, env, s, a, GenStmt(w.u, st, k, env)) && !EvalStmt(w.c, fuel, st, s).o.Fail?
    ensures var out := GenStmt(w.u, st, k, env).value;
      StmtSimulates(w, k, env, out.env, a, |out.code|, EvalStmt(w.c, fuel, st, s), m)
    decreases fuel, st, 2
  {
    hide Ready, GenStmt, EvalStmt, StmtSimulates;
    match st
    case Let(_, _) => m := SimLet(w, fuel, st, k, env, s, a);
    case Assign(_, _) => m := SimLet(w, fuel, st, k, env, s, a);
    case Output(e) => m := SimTailed(w, fuel, st, e, k, env, s, a);
    case ExprStmt(e) => m := SimTailed(w, fuel, st, e, k, env, s, a);
    case While(_, _) => m := SimLoopStmt(w, fuel, st, k, env, s, a);
    case DoWhile(_, _) => m := SimLoopStmt(w, fuel, st, k, env, s, a);
    case Break => m := SimJump(w, fuel, st, k, env, s, a);
    case Continue => m := SimJump(w, fuel, st, k, env, s, a);
    case Return(result) =>
      if result.Some? {
        m := SimTailed(w, fuel, st, result.value, k, env, s, a);
      } else {
        m := SimEmpty(w, fuel, st, k, env, s, a);
      }
    case Throw(e) => m := SimTailed(w, fuel, st, e, k, env, s, a);
    case FnDef(_) => m := SimEmpty(w, fuel, st, k, env, s, a);
  }

  // ---- leaves and the induction ----

  lemma SimLit(w: World, fuel: nat, e: Expr, k: Option<nat>, env: Env, s: State, a: Config) returns (m: Mem)
    requires e.Lit? && env.scopes != [] && Ready(w, k, env, s, a, GenExpr(w.u, e, k, env))
    ensures var r := EvalExpr(w.c, fuel, e, s);
      Simulates(w, k, env, a, |GenExpr(w.u, e, k, env).value.code|, r, Vals(r.o), m)
  {
    hide Linked, Good, ScopesRel, GlobalsRel, Segment, Runs, LabelsOk, Visible, At;
    m := MemOf(a);
    Fetch(w, a.frame, GenLit(e.value, env).code, 0);
    if e.value.Str? {
      InternFinal(env.strings, w.m.strings, e.value.s);
    }
    RunsRefl(w, a);
    DoPush(w, a, a, GenLit(e.value, env).code[0]);
    assert Push(a, e.value) == Next(a, 1, [e.value], m);
  }

  lemma SimVar(w: World, fuel: nat, e: Expr, k: Option<nat>, env: Env, s: State, a: Config) returns (m: Mem)
    requires e.Var? && env.scopes != [] && Ready(w, k, env, s, a, GenExpr(w.u, e, k, env)) && !EvalExpr(w.c, fuel, e, s).o.Fail?
    ensures var r := EvalExpr(w.c, fuel, e, s);
      Simulates(w, k, env, a, |GenExpr(w.u, e, k, env).value.code|, r, Vals(r.o), m)
  {
    hide Linked, Good, ScopesRel, GlobalsRel, Segment, Runs, LabelsOk, Visible, At;
    m := MemOf(a);
    SimRead(w, e.name, env, s, a);
    assert Push(a, EvalExpr(w.c, fuel, e, s).o.v) == Next(a, 1, [EvalExpr(w.c, fuel, e, s).o.v], m);
  }

  lemma UnaryParts(w: World, fuel: nat, e: Expr, k: Option<nat>, env: Env, s: State)
    requires e.Un? && env.scopes != [] && GenExpr(w.u, e, k, env).Some?
    ensures GenExpr(w.u, e.operand, k, env).Some?
    ensures var x := GenExpr(w.u, e.operand, k, env).value;
      && GenExpr(w.u, e, k, env) == Some(Emitted(x.code + [if e.uop.Not? then BoolNot else I64Neg], x.env))
    ensures var x := EvalExpr(w.c, fuel, e.operand, s);
      EvalExpr(w.c, fuel, e, s) ==
        if !x.o.Norm? then x
        else if e.uop.Not? then Res(Norm(Bool(!w.c.prims.truthy(x.o.v))), x.st) else Lift(w.c, w.c.prims.neg(x.o.v), x.st)
  {
  }

  lemma {:induction false} SimUnary(w: World, fuel: nat, e: Expr, k: Option<nat>, env: Env, s: State, a: Config) returns (m: Mem)
    requires e.Un? && env.scopes != []
    requires Ready(w, k, env, s, a, GenExpr(w.u, e, k, env)) && !EvalExpr(w.c, fuel, e, s).o.Fail?
    ensures var r := EvalExpr(w.c, fuel, e, s);
      Simulates(w, k, env, a, |GenExpr(w.u, e, k, env).value.code|, r, Vals(r.o), m)
    decreases fuel, e, 1
  {
    hide Linked, Good, ScopesRel, GlobalsRel, Segment, Runs, GenExpr, EvalExpr, Grows, Visible, LabelsOk, At, Does, Fits, Rel;
    UnaryParts(w, fuel, e, k, env, s);
    var x := GenExpr(w.u, e.operand, k, env).value;
    var last := [if e.uop.Not? then BoolNot else I64Neg];
    Split(w, a.frame, x.code, last);
    m := SimExpr(w, fuel, e.operand, k, env, s, a);
    var y := EvalExpr(w.c, fuel, e.operand, s);
    if y.o.Norm? {
      DoesNorm(w, k, a, |x.code|, y.o, [y.o.v], m);
      var b := Next(a, |x.code|, [y.o.v], m);
      Fetch(w, a.frame.(pc := a.frame.pc + |x.code|), last, 0);
      assert b.frame.stack[..|b.frame.stack|-1] == a.frame.stack;
      var r := EvalExpr(w.c, fuel, e, s);
      if e.uop.Not? {
        DoNot(w, a, b);
      } else {
        DoNeg(w, a, b);
      }
      assert Pop1(b, r.o.v) == Next(a, |x.code| + 1, [r.o.v], m);
      DoesNorm(w, k, a, |x.code| + 1, r.o, [r.o.v], m);
    } else {
      Abrupt(w, k, a, |x.code|, |x.code + last|, y.o, [], [], m);
    }
  }

  lemma {:induction false} SimExpr(w: World, fuel: nat, e: Expr, k: Option<nat>, env: Env, s: State, a: Config) returns (m: Mem)
    requires env.scopes != [] && Ready(w, k, env, s, a, GenExpr(w.u, e, k, env)) && !EvalExpr(w.c, fuel, e, s).o.Fail?
    ensures var r := EvalExpr(w.c, fuel, e, s);
      Simulates(w, k, env, a, |GenExpr(w.u, e, k, env).value.code|, r, Vals(r.o), m)
    decreases fuel, e, 2
  {
    match e
    case Lit(_) => m := SimLit(w, fuel, e, k, env, s, a);
    case Var(_) => m := SimVar(w, fuel, e, k, env, s, a);
    case Bin(op, _, _) =>
      if op.And? || op.Or? {
        m := SimLogic(w, fuel, e, k, env, s, a);
      } else {
        m := SimArith(w, fuel, e, k, env, s, a);
      }
    case Un(_, _) => m := SimUnary(w, fuel, e, k, env, s, a);
    case Call(_, _) => m := SimCall(w, fuel, e, k, env, s, a);
    case If(_, _, _) => m := SimIf(w, fuel, e, k, env, s, a);
    case BlockExpr(block) => m := SimBlock(w, fuel, block, k, env, s, a);
    case Coalesce(_, _) => m := SimCoalesce(w, fuel, e, k, env, s, a);
    case Loop(_) => m := SimLoop(w, fuel, e, k, env, s, a);
  }
}
