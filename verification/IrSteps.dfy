// One lemma per instruction: how it extends a run from `a` that has reached `b`.
module IrSteps {
  import opened Wrappers
  import opened Syntax
  import opened Values
  import opened Semantics
  import opened IrMachine
  import opened IrCodegen
  import opened IrBrackets
  import opened IrRelation

  // The machine at frame `f` is about to execute `i`.
  ghost predicate Op(w: World, f: Frame, i: Instr) {
    f.fn < |w.m.functions| && f.pc < |w.m.functions[f.fn].code| && w.m.functions[f.fn].code[f.pc] == i
  }

  ghost predicate Runs(w: World, a: Config, b: Config) {
    Reach(w.m, w.c.prims, a, b)
  }

  lemma RunsRefl(w: World, a: Config)
    ensures Runs(w, a, a)
  {
    ReachRefl(w.m, w.c.prims, a);
  }

  lemma RunsTrans(w: World, a: Config, b: Config, c: Config)
    requires Runs(w, a, b) && Runs(w, b, c)
    ensures Runs(w, a, c)
  {
    ReachTrans(w.m, w.c.prims, a, b, c);
  }

  lemma Fetch(w: World, f: Frame, code: seq<Instr>, i: nat)
    requires At(w, f, code) && i < |code|
    ensures Op(w, f.(pc := f.pc + i), code[i])
  {
    SegAt(w.m.functions[f.fn].code, f.pc, code, i);
  }

  lemma Split(w: World, f: Frame, a: seq<Instr>, b: seq<Instr>)
    requires At(w, f, a + b)
    ensures At(w, f, a) && At(w, f.(pc := f.pc + |a|), b)
  {
    SegSplit(w.m.functions[f.fn].code, f.pc, a, b);
  }

  lemma Split3(w: World, f: Frame, a: seq<Instr>, b: seq<Instr>, c: seq<Instr>)
    requires At(w, f, a + b + c)
    ensures At(w, f, a) && At(w, f.(pc := f.pc + |a|), b) && At(w, f.(pc := f.pc + |a| + |b|), c)
  {
    Split(w, f, a + b, c);
    Split(w, f, a, b);
  }

  // A code position does not depend on the operands, labels or locals.
  lemma AtMoved(w: World, f: Frame, f2: Frame, code: seq<Instr>)
    requires At(w, f, code) && f2.fn == f.fn && f2.pc == f.pc
    ensures At(w, f2, code)
  {
  }

  function Top(b: Config): Value
    requires b.Run? && b.frame.stack != []
  {
    b.frame.stack[|b.frame.stack|-1]
  }

  // `b` after popping one operand and moving to the next instruction.
  function Popped(b: Config): Config
    requires b.Run? && b.frame.stack != []
  {
    b.(frame := b.frame.(pc := b.frame.pc + 1, stack := b.frame.stack[..|b.frame.stack|-1]))
  }

  // `b` after storing its top operand in local `x`.
  function Stored(b: Config, x: nat): Config
    requires b.Run? && b.frame.stack != [] && x < |b.frame.locals|
  {
    b.(frame := b.frame.(pc := b.frame.pc + 1, stack := b.frame.stack[..|b.frame.stack|-1],
                         locals := b.frame.locals[x := Top(b)]))
  }

  lemma DoStep(w: World, a: Config, b: Config)
    requires Runs(w, a, b)
    ensures Runs(w, a, Step(w.m, w.c.prims, b))
  {
    ReachStep(w.m, w.c.prims, a, b);
  }

  // What a constant or a load pushes.
  function Pushed(m: Module, b: Config, i: Instr): Option<Value>
    requires b.Run?
  {
    match i
    case PushNull => Some(Null)
    case PushBool(x) => Some(Bool(x))
    case PushI64(n) => Some(Int(n))
    case PushString(s) => if s < |m.strings| then Some(Str(m.strings[s])) else None
    case LocalGet(x) => if x < |b.frame.locals| then Some(b.frame.locals[x]) else None
    case GlobalGet(x) => if x < |b.globals| then Some(b.globals[x]) else None
    case _ => None
  }

  lemma DoPush(w: World, a: Config, b: Config, i: Instr)
    requires Runs(w, a, b) && b.Run? && Op(w, b.frame, i) && Pushed(w.m, b, i).Some?
    ensures Runs(w, a, Push(b, Pushed(w.m, b, i).value))
  {
    DoStep(w, a, b);
  }

  lemma DoLocalSet(w: World, a: Config, b: Config, x: nat)
    requires Runs(w, a, b) && b.Run? && Op(w, b.frame, LocalSet(x)) && b.frame.stack != [] && x < |b.frame.locals|
    ensures Runs(w, a, Stored(b, x))
  {
    DoStep(w, a, b);
  }

  lemma DoGlobalSet(w: World, a: Config, b: Config, x: nat)
    requires Runs(w, a, b) && b.Run? && Op(w, b.frame, GlobalSet(x)) && b.frame.stack != [] && x < |b.globals|
    ensures Runs(w, a, Popped(b).(globals := b.globals[x := Top(b)]))
  {
    DoStep(w, a, b);
  }

  lemma DoDrop(w: World, a: Config, b: Config)
    requires Runs(w, a, b) && b.Run? && Op(w, b.frame, Drop) && b.frame.stack != []
    ensures Runs(w, a, Popped(b))
  {
    DoStep(w, a, b);
  }

  lemma DoPrint(w: World, a: Config, b: Config)
    requires Runs(w, a, b) && b.Run? && Op(w, b.frame, Print) && b.frame.stack != []
    ensures Runs(w, a, Popped(b).(out := b.out + [w.c.prims.show(Top(b))]))
  {
    DoStep(w, a, b);
  }

  lemma DoNot(w: World, a: Config, b: Config)
    requires Runs(w, a, b) && b.Run? && Op(w, b.frame, BoolNot) && b.frame.stack != []
    ensures Runs(w, a, Pop1(b, Bool(!w.c.prims.truthy(Top(b)))))
  {
    DoStep(w, a, b);
  }

  lemma DoNeg(w: World, a: Config, b: Config)
    requires Runs(w, a, b) && b.Run? && Op(w, b.frame, I64Neg) && b.frame.stack != []
    requires w.c.prims.neg(Top(b)).Some?
    ensures Runs(w, a, Pop1(b, w.c.prims.neg(Top(b)).value))
  {
    DoStep(w, a, b);
  }

  lemma DoGetTag(w: World, a: Config, b: Config)
    requires Runs(w, a, b) && b.Run? && Op(w, b.frame, GetTag) && b.frame.stack != []
    ensures Runs(w, a, Pop1(b, Int(TagOf(Top(b)))))
  {
    DoStep(w, a, b);
  }

  lemma DoEq(w: World, a: Config, b: Config)
    requires Runs(w, a, b) && b.Run? && Op(w, b.frame, I64Eq) && |b.frame.stack| >= 2
    ensures Runs(w, a, Pop2(b, Bool(b.frame.stack[|b.frame.stack|-2] == Top(b))))
  {
    DoStep(w, a, b);
  }

  lemma DoBinOp(w: World, a: Config, b: Config, op: BinOp, name: nat)
    requires Runs(w, a, b) && b.Run? && Op(w, b.frame, RuntimeCall(name, 2)) && |b.frame.stack| >= 2
    requires name < |w.m.strings| && w.m.strings[name] == OpName(op) && !op.And? && !op.Or?
    requires w.c.prims.bin(op, b.frame.stack[|b.frame.stack|-2], Top(b)).Some?
    ensures Runs(w, a, Pop2(b, w.c.prims.bin(op, b.frame.stack[|b.frame.stack|-2], Top(b)).value))
  {
    NamedOpInverse(op);
    DoStep(w, a, b);
  }

  function Opened(b: Config, target: nat): Config
    requires b.Run?
  {
    b.(frame := b.frame.(pc := b.frame.pc + 1, labels := b.frame.labels + [Label(target, |b.frame.stack|, 0)]))
  }

  // A block whose body is `body`: branches to it land after its end.
  lemma DoBlock(w: World, a: Config, b: Config, body: seq<Instr>)
    requires Runs(w, a, b) && b.Run? && At(w, b.frame, [OpenBlock] + body + [End]) && Balanced(body)
    ensures Runs(w, a, Opened(b, b.frame.pc + |body| + 2))
  {
    hide Step, FindEnd, Balanced;
    Split3(w, b.frame, [OpenBlock], body, [End]);
    Fetch(w, b.frame, [OpenBlock], 0);
    assert [OpenBlock] + body + [End] == [OpenBlock] + (body + [End]);
    Split(w, b.frame, [OpenBlock], body + [End]);
    EndAfter(w.m.functions[b.frame.fn].code, b.frame.pc + 1, body);
    OpensBlock(w, b);
    DoStep(w, a, b);
  }

  lemma OpensBlock(w: World, b: Config)
    requires b.Run? && Op(w, b.frame, OpenBlock)
    ensures Step(w.m, w.c.prims, b) == Opened(b, FindEnd(w.m.functions[b.frame.fn].code, b.frame.pc + 1, 0) + 1)
  {
    hide FindEnd;
  }

  lemma DoLoop(w: World, a: Config, b: Config)
    requires Runs(w, a, b) && b.Run? && Op(w, b.frame, OpenLoop)
    ensures Runs(w, a, Opened(b, b.frame.pc))
  {
    DoStep(w, a, b);
  }

  lemma DoEnd(w: World, a: Config, b: Config)
    requires Runs(w, a, b) && b.Run? && Op(w, b.frame, End) && b.frame.labels != []
    ensures Runs(w, a, b.(frame := b.frame.(pc := b.frame.pc + 1, labels := b.frame.labels[..|b.frame.labels|-1])))
  {
    DoStep(w, a, b);
  }

  // The branch of a conditional that is taken, entered one label deeper.
  function Branch(b: Config, taken: bool, thn: seq<Instr>, els: seq<Instr>): Config
    requires b.Run? && b.frame.stack != []
  {
    var n := |b.frame.stack| - 1;
    b.(frame := b.frame.(pc := b.frame.pc + (if taken then 1 else |thn| + 2),
                         stack := b.frame.stack[..n],
                         labels := b.frame.labels + [Label(b.frame.pc + |IfElse(thn, els)|, n, 1)]))
  }

  lemma IfSegments(whole: seq<Instr>, p: nat, thn: seq<Instr>, els: seq<Instr>)
    requires Segment(whole, p, IfElse(thn, els))
    ensures Segment(whole, p, [OpenIf])
    ensures Segment(whole, p + 1, thn + [Else]) && Segment(whole, p + 1, thn)
    ensures Segment(whole, p + 1 + |thn|, [Else])
    ensures Segment(whole, p + 2 + |thn|, els + [End]) && Segment(whole, p + 2 + |thn|, els)
    ensures Segment(whole, p + 2 + |thn| + |els|, [End])
  {
    assert IfElse(thn, els) == ([OpenIf] + (thn + [Else])) + (els + [End]);
    SegSplit(whole, p, [OpenIf] + (thn + [Else]), els + [End]);
    SegSplit(whole, p, [OpenIf], thn + [Else]);
    SegSplit(whole, p + 1, thn, [Else]);
    SegSplit(whole, p + 2 + |thn|, els, [End]);
  }

  lemma IfBodyEnd(whole: seq<Instr>, p: nat, thn: seq<Instr>, els: seq<Instr>)
    requires Segment(whole, p, IfElse(thn, els)) && Balanced(thn) && Balanced(els)
    ensures FindElse(whole, p + 1, 0) == p + 1 + |thn|
    ensures FindEnd(whole, p + 1, 0) == FindEnd(whole, p + |thn| + 2, 0) == p + |thn| + 2 + |els|
  {
    IfSegments(whole, p, thn, els);
    ElseAfter(whole, p + 1, thn);
    FindSkips(whole, p + 1, thn, 0, 0);
    SegAt(whole, p + 1 + |thn|, [Else], 0);
    EndAfter(whole, p + 2 + |thn|, els);
  }

  lemma IfParts(w: World, f: Frame, thn: seq<Instr>, els: seq<Instr>)
    requires At(w, f, IfElse(thn, els))
    ensures Op(w, f, OpenIf)
    ensures At(w, f.(pc := f.pc + 1), thn)
    ensures Op(w, f.(pc := f.pc + 1 + |thn|), Else)
    ensures At(w, f.(pc := f.pc + 2 + |thn|), els)
    ensures Op(w, f.(pc := f.pc + 2 + |thn| + |els|), End)
  {
    var whole := w.m.functions[f.fn].code;
    IfSegments(whole, f.pc, thn, els);
    SegAt(whole, f.pc, [OpenIf], 0);
    SegAt(whole, f.pc + 1 + |thn|, [Else], 0);
    SegAt(whole, f.pc + 2 + |thn| + |els|, [End], 0);
  }

  lemma DoIf(w: World, a: Config, b: Config, thn: seq<Instr>, els: seq<Instr>)
    requires Runs(w, a, b) && b.Run? && At(w, b.frame, IfElse(thn, els)) && b.frame.stack != []
    requires Balanced(thn) && Balanced(els)
    ensures Runs(w, a, Branch(b, w.c.prims.truthy(Top(b)), thn, els))
  {
    hide Runs, Segment, Balanced;
    IfParts(w, b.frame, thn, els);
    IfBodyEnd(w.m.functions[b.frame.fn].code, b.frame.pc, thn, els);
    StepIf(w, a, b);
  }

  lemma StepIf(w: World, a: Config, b: Config)
    requires Runs(w, a, b) && b.Run? && Op(w, b.frame, OpenIf) && b.frame.stack != []
    ensures var code := w.m.functions[b.frame.fn].code;
      var pc, n := b.frame.pc + 1, |b.frame.stack| - 1;
      Runs(w, a, b.(frame := b.frame.(pc := if w.c.prims.truthy(Top(b)) then pc else FindElse(code, pc, 0) + 1,
                                      stack := b.frame.stack[..n],
                                      labels := b.frame.labels + [Label(FindEnd(code, pc, 0) + 1, n, 1)])))
  {
    hide Runs;
    DoStep(w, a, b);
  }

  // Leaving the conditional whose code starts at `start`, from the end of either branch.
  function Joined(b: Config, pc: nat): Config
    requires b.Run? && b.frame.labels != []
  {
    b.(frame := b.frame.(pc := pc, labels := b.frame.labels[..|b.frame.labels|-1]))
  }

  lemma DoElse(w: World, a: Config, b: Config, start: Frame, thn: seq<Instr>, els: seq<Instr>)
    requires Runs(w, a, b) && b.Run? && b.frame.labels != [] && Balanced(thn) && Balanced(els)
    requires At(w, start, IfElse(thn, els)) && b.frame.fn == start.fn && b.frame.pc == start.pc + 1 + |thn|
    ensures Runs(w, a, Joined(b, start.pc + |IfElse(thn, els)|))
  {
    hide Runs, Segment, Balanced;
    IfParts(w, start, thn, els);
    IfBodyEnd(w.m.functions[b.frame.fn].code, start.pc, thn, els);
    StepElse(w, a, b);
  }

  lemma StepElse(w: World, a: Config, b: Config)
    requires Runs(w, a, b) && b.Run? && Op(w, b.frame, Else) && b.frame.labels != []
    ensures Runs(w, a, Joined(b, FindEnd(w.m.functions[b.frame.fn].code, b.frame.pc + 1, 0) + 1))
  {
    hide Runs;
    DoStep(w, a, b);
  }

  lemma DoBr(w: World, a: Config, b: Config, l: nat)
    requires Runs(w, a, b) && b.Run? && Op(w, b.frame, Br(l)) && CanBranch(b.frame, l)
    ensures Runs(w, a, b.(frame := BranchTo(b.frame, l)))
  {
    DoStep(w, a, b);
  }

  lemma DoBrIf(w: World, a: Config, b: Config, l: nat)
    requires Runs(w, a, b) && b.Run? && Op(w, b.frame, BrIf(l)) && b.frame.stack != []
    requires CanBranch(Popped(b).frame, l)
    ensures Runs(w, a, if w.c.prims.truthy(Top(b)) then b.(frame := BranchTo(b.frame.(stack := Popped(b).frame.stack), l)) else Popped(b))
  {
    DoStep(w, a, b);
  }

  lemma DoLeave(w: World, a: Config, b: Config)
    requires Runs(w, a, b) && b.Run? && Op(w, b.frame, Leave) && b.frame.stack != []
    ensures Runs(w, a, Resume(Top(b), b.callers, b.globals, b.out))
  {
    DoStep(w, a, b);
  }

  lemma DoTrap(w: World, a: Config, b: Config)
    requires Runs(w, a, b) && b.Run? && Op(w, b.frame, Unreachable)
    ensures Runs(w, a, Trap(b.globals, b.out))
  {
    DoStep(w, a, b);
  }

  function Called(m: Module, b: Config, fn: nat): Config
    requires b.Run? && fn < |m.functions|
    requires m.functions[fn].params <= |b.frame.stack| && m.functions[fn].params <= m.functions[fn].locals
  {
    var callee := m.functions[fn];
    var n := |b.frame.stack| - callee.params;
    Run(Frame(fn, 0, [], [], b.frame.stack[n..] + Nulls(callee.locals - callee.params)),
        b.callers + [b.frame.(pc := b.frame.pc + 1, stack := b.frame.stack[..n])], b.globals, b.out)
  }

  lemma DoInvoke(w: World, a: Config, b: Config, fn: nat)
    requires Runs(w, a, b) && b.Run? && Op(w, b.frame, Invoke(fn)) && fn < |w.m.functions|
    requires w.m.functions[fn].params <= |b.frame.stack| && w.m.functions[fn].params <= w.m.functions[fn].locals
    ensures Runs(w, a, Called(w.m, b, fn))
  {
    DoStep(w, a, b);
  }

  // ---- running a fragment ----

  // The labels that `continue` (k) and `break` (k+1) name keep the current stack.
  ghost predicate LabelsOk(f: Frame, k: Option<nat>) {
    k.Some? ==> k.value + 2 <= |f.labels| && LoopLabel(f, k.value) && LoopLabel(f, k.value + 1)
  }

  ghost predicate LoopLabel(f: Frame, l: nat)
    requires l < |f.labels|
  {
    f.labels[|f.labels| - 1 - l].height <= |f.stack| && f.labels[|f.labels| - 1 - l].arity == 0
  }

  predicate Jumps(o: Outcome, k: Option<nat>) {
    o.Brk? || o.Cont? ==> k.Some?
  }

  // `a` after a fragment of length `n` that pushed `vals` and left memory `m`.
  function Next(a: Config, n: nat, vals: seq<Value>, m: Mem): Config
    requires a.Run?
  {
    Run(a.frame.(pc := a.frame.pc + n, stack := a.frame.stack + vals, locals := m.locals), a.callers, m.globals, m.out)
  }

  // Where a fragment entered at `a` ends, for every outcome of the source.
  ghost function Landing(o: Outcome, a: Config, n: nat, vals: seq<Value>, k: Option<nat>, m: Mem): Config
    requires a.Run? && !o.Fail? && LabelsOk(a.frame, k) && Jumps(o, k)
  {
    match o
    case Norm(_) => Next(a, n, vals, m)
    case Brk => Run(BranchTo(a.frame.(locals := m.locals), k.value + 1), a.callers, m.globals, m.out)
    case Cont => Run(BranchTo(a.frame.(locals := m.locals), k.value), a.callers, m.globals, m.out)
    case Ret(v) => Resume(v, a.callers, m.globals, m.out)
    case Thrown(_) => Trap(m.globals, m.out)
  }

  // The machine, started at `a`, ends as outcome `o` asks.
  ghost predicate Does(w: World, k: Option<nat>, a: Config, n: nat, o: Outcome, vals: seq<Value>, m: Mem) {
    && a.Run? && !o.Fail? && LabelsOk(a.frame, k) && Jumps(o, k) && |m.locals| == |a.frame.locals|
    && Runs(w, a, Landing(o, a, n, vals, k, m))
  }

  lemma DoesNorm(w: World, k: Option<nat>, a: Config, n: nat, o: Outcome, vals: seq<Value>, m: Mem)
    requires o.Norm?
    ensures Does(w, k, a, n, o, vals, m)
      <==> a.Run? && LabelsOk(a.frame, k) && |m.locals| == |a.frame.locals| && Runs(w, a, Next(a, n, vals, m))
  {
    hide LabelsOk, Runs;
  }

  // `b` runs inside the constructs of `a`, `extra` labels deeper, on top of its operands.
  ghost predicate Inside(a: Config, b: Config, extra: nat) {
    && a.Run? && b.Run? && b.callers == a.callers
    && b.frame.fn == a.frame.fn && |b.frame.labels| == |a.frame.labels| + extra
    && b.frame.labels[..|a.frame.labels|] == a.frame.labels && a.frame.stack <= b.frame.stack
    && |b.frame.locals| == |a.frame.locals|
  }

  lemma InsideLabels(a: Config, b: Config, extra: nat, k: Option<nat>)
    requires Inside(a, b, extra) && LabelsOk(a.frame, k)
    ensures LabelsOk(b.frame, Deeper(k, extra))
  {
    if k.Some? {
      var n := |a.frame.labels|;
      assert b.frame.labels[n - 1 - k.value] == b.frame.labels[..n][n - 1 - k.value];
      assert b.frame.labels[n - 2 - k.value] == b.frame.labels[..n][n - 2 - k.value];
    }
  }

  // A branch from an inner construct unwinds to the same place.
  lemma BranchOuter(f: Frame, f2: Frame, extra: nat, l: nat)
    requires f2.fn == f.fn && f2.locals == f.locals && |f2.labels| == |f.labels| + extra
    requires f2.labels[..|f.labels|] == f.labels && f.stack <= f2.stack
    requires l < |f.labels| && LoopLabel(f, l)
    ensures l + extra < |f2.labels| && LoopLabel(f2, l + extra)
    ensures BranchTo(f2, l + extra) == BranchTo(f, l)
  {
    var at := |f.labels| - 1 - l;
    assert f2.labels[at] == f2.labels[..|f.labels|][at];
    assert f2.labels[..at] == f2.labels[..|f.labels|][..at];
    var h := f.labels[at].height;
    assert f2.stack[..h] == f.stack[..h];
    assert f2.stack[|f2.stack|..] == [] && f.stack[|f.stack|..] == [];
  }

  // A fragment that ends abruptly inside a construct of `a` ends `a` the same way.
  lemma AbruptInside(w: World, k: Option<nat>, a: Config, b: Config, extra: nat, o: Outcome, m: Mem,
                     n: nat, n2: nat, vals: seq<Value>, vals2: seq<Value>)
    requires Runs(w, a, b) && Inside(a, b, extra) && LabelsOk(a.frame, k)
    requires !o.Norm? && Does(w, Deeper(k, extra), b, n2, o, vals2, m)
    ensures Does(w, k, a, n, o, vals, m)
  {
    hide Runs;
    RunsTrans(w, a, b, Landing(o, b, n2, vals2, Deeper(k, extra), m));
    if o.Brk? || o.Cont? {
      BranchOuter(a.frame.(locals := m.locals), b.frame.(locals := m.locals), extra, if o.Brk? then k.value + 1 else k.value);
    }
  }

  // Two fragments in sequence.
  lemma InSequence(w: World, k: Option<nat>, a: Config, n1: nat, o1: Outcome, vals1: seq<Value>, m1: Mem,
                   n2: nat, o2: Outcome, vals2: seq<Value>, m2: Mem)
    requires Does(w, k, a, n1, o1, vals1, m1) && o1.Norm?
    requires Does(w, k, Next(a, n1, vals1, m1), n2, o2, vals2, m2)
    ensures Does(w, k, a, n1 + n2, o2, if o2.Norm? then vals1 + vals2 else [], m2)
  {
    var b := Next(a, n1, vals1, m1);
    if o2.Norm? {
      RunsTrans(w, a, b, Next(b, n2, vals2, m2));
      assert a.frame.stack + vals1 + vals2 == a.frame.stack + (vals1 + vals2);
      assert Next(b, n2, vals2, m2) == Next(a, n1 + n2, vals1 + vals2, m2);
    } else {
      assert Deeper(k, 0) == k;
      AbruptInside(w, k, a, b, 0, o2, m2, n1 + n2, n2, [], vals2);
    }
  }

  // How long the code was and what it would have pushed do not matter for an abrupt end.
  lemma Abrupt(w: World, k: Option<nat>, a: Config, n: nat, n': nat, o: Outcome, vals: seq<Value>, vals': seq<Value>, m: Mem)
    requires Does(w, k, a, n, o, vals, m) && !o.Norm?
    ensures Does(w, k, a, n', o, vals', m)
  {
  }

  // A configuration inside the constructs of `a`: `off` instructions on, under extra labels and operands.
  function Within(a: Config, off: nat, labels: seq<Label>, vals: seq<Value>, m: Mem): Config
    requires a.Run?
  {
    Run(a.frame.(pc := a.frame.pc + off, labels := a.frame.labels + labels, stack := a.frame.stack + vals, locals := m.locals),
        a.callers, m.globals, m.out)
  }

  lemma WithinInside(a: Config, off: nat, labels: seq<Label>, vals: seq<Value>, m: Mem)
    requires a.Run? && |m.locals| == |a.frame.locals|
    ensures Inside(a, Within(a, off, labels, vals, m), |labels|)
  {
  }

  lemma NextWithin(a: Config, off: nat, labels: seq<Label>, vals: seq<Value>, m: Mem, n: nat, vals': seq<Value>, m': Mem)
    requires a.Run?
    ensures Next(Within(a, off, labels, vals, m), n, vals', m') == Within(a, off + n, labels, vals + vals', m')
  {
    assert a.frame.stack + vals + vals' == a.frame.stack + (vals + vals');
  }

  lemma WithinNext(a: Config, off: nat, vals: seq<Value>, m: Mem)
    requires a.Run?
    ensures Within(a, off, [], vals, m) == Next(a, off, vals, m)
  {
    assert a.frame.labels + [] == a.frame.labels;
  }

  // ---- instructions, relative to the start of a fragment ----

  ghost predicate OpAt(w: World, a: Config, off: nat, i: Instr)
    requires a.Run?
  {
    Op(w, a.frame.(pc := a.frame.pc + off), i)
  }

  lemma GoPush(w: World, a: Config, off: nat, ls: seq<Label>, vs: seq<Value>, m: Mem, i: Instr)
    requires a.Run? && Runs(w, a, Within(a, off, ls, vs, m)) && OpAt(w, a, off, i)
    requires Pushed(w.m, Within(a, off, ls, vs, m), i).Some?
    ensures Runs(w, a, Within(a, off + 1, ls, vs + [Pushed(w.m, Within(a, off, ls, vs, m), i).value], m))
  {
    var b := Within(a, off, ls, vs, m);
    DoPush(w, a, b, i);
    NextWithin(a, off, ls, vs, m, 1, [Pushed(w.m, b, i).value], m);
    assert Push(b, Pushed(w.m, b, i).value) == Next(b, 1, [Pushed(w.m, b, i).value], m);
  }

  lemma PopWithin(a: Config, off: nat, ls: seq<Label>, vs: seq<Value>, v: Value, m: Mem)
    requires a.Run?
    ensures var b := Within(a, off, ls, vs + [v], m);
      Top(b) == v && Popped(b) == Within(a, off + 1, ls, vs, m)
  {
    var b := Within(a, off, ls, vs + [v], m);
    assert b.frame.stack == (a.frame.stack + vs) + [v];
  }

  lemma GoLocalSet(w: World, a: Config, off: nat, ls: seq<Label>, vs: seq<Value>, v: Value, m: Mem, x: nat)
    requires a.Run? && Runs(w, a, Within(a, off, ls, vs + [v], m)) && OpAt(w, a, off, LocalSet(x)) && x < |m.locals|
    ensures Runs(w, a, Within(a, off + 1, ls, vs, m.(locals := m.locals[x := v])))
  {
    PopWithin(a, off, ls, vs, v, m);
    DoLocalSet(w, a, Within(a, off, ls, vs + [v], m), x);
  }

  lemma GoDrop(w: World, a: Config, off: nat, ls: seq<Label>, vs: seq<Value>, v: Value, m: Mem)
    requires a.Run? && Runs(w, a, Within(a, off, ls, vs + [v], m)) && OpAt(w, a, off, Drop)
    ensures Runs(w, a, Within(a, off + 1, ls, vs, m))
  {
    PopWithin(a, off, ls, vs, v, m);
    DoDrop(w, a, Within(a, off, ls, vs + [v], m));
  }

  lemma GoNot(w: World, a: Config, off: nat, ls: seq<Label>, vs: seq<Value>, v: Value, m: Mem)
    requires a.Run? && Runs(w, a, Within(a, off, ls, vs + [v], m)) && OpAt(w, a, off, BoolNot)
    ensures Runs(w, a, Within(a, off + 1, ls, vs + [Bool(!w.c.prims.truthy(v))], m))
  {
    var b := Within(a, off, ls, vs + [v], m);
    PopWithin(a, off, ls, vs, v, m);
    DoNot(w, a, b);
    NextWithin(a, off + 1, ls, vs, m, 0, [Bool(!w.c.prims.truthy(v))], m);
    assert Pop1(b, Bool(!w.c.prims.truthy(v))) == Next(Popped(b), 0, [Bool(!w.c.prims.truthy(v))], m);
  }

  lemma GoTag(w: World, a: Config, off: nat, ls: seq<Label>, vs: seq<Value>, v: Value, m: Mem)
    requires a.Run? && Runs(w, a, Within(a, off, ls, vs + [v], m)) && OpAt(w, a, off, GetTag)
    ensures Runs(w, a, Within(a, off + 1, ls, vs + [Int(TagOf(v))], m))
  {
    var b := Within(a, off, ls, vs + [v], m);
    PopWithin(a, off, ls, vs, v, m);
    DoGetTag(w, a, b);
    NextWithin(a, off + 1, ls, vs, m, 0, [Int(TagOf(v))], m);
    assert Pop1(b, Int(TagOf(v))) == Next(Popped(b), 0, [Int(TagOf(v))], m);
  }

  lemma GoEq(w: World, a: Config, off: nat, ls: seq<Label>, vs: seq<Value>, x: Value, y: Value, m: Mem)
    requires a.Run? && Runs(w, a, Within(a, off, ls, vs + [x] + [y], m)) && OpAt(w, a, off, I64Eq)
    ensures Runs(w, a, Within(a, off + 1, ls, vs + [Bool(x == y)], m))
  {
    var b := Within(a, off, ls, vs + [x] + [y], m);
    PopWithin(a, off, ls, vs + [x], y, m);
    PopWithin(a, off + 1, ls, vs, x, m);
    assert b.frame.stack == (a.frame.stack + vs) + [x] + [y];
    DoEq(w, a, b);
    assert b.frame.stack[..|b.frame.stack| - 2] + [Bool(x == y)] == a.frame.stack + (vs + [Bool(x == y)]);
  }

  lemma GoBlock(w: World, a: Config, off: nat, ls: seq<Label>, vs: seq<Value>, m: Mem, body: seq<Instr>)
    requires a.Run? && Runs(w, a, Within(a, off, ls, vs, m)) && Balanced(body)
    requires At(w, a.frame.(pc := a.frame.pc + off), [OpenBlock] + body + [End])
    ensures Runs(w, a, Within(a, off + 1, ls + [Label(a.frame.pc + off + |body| + 2, |a.frame.stack + vs|, 0)], vs, m))
  {
    var b := Within(a, off, ls, vs, m);
    DoBlock(w, a, b, body);
    assert a.frame.labels + ls + [Label(b.frame.pc + |body| + 2, |b.frame.stack|, 0)]
        == a.frame.labels + (ls + [Label(b.frame.pc + |body| + 2, |b.frame.stack|, 0)]);
  }

  lemma GoLoop(w: World, a: Config, off: nat, ls: seq<Label>, vs: seq<Value>, m: Mem)
    requires a.Run? && Runs(w, a, Within(a, off, ls, vs, m)) && OpAt(w, a, off, OpenLoop)
    ensures Runs(w, a, Within(a, off + 1, ls + [Label(a.frame.pc + off, |a.frame.stack + vs|, 0)], vs, m))
  {
    var b := Within(a, off, ls, vs, m);
    DoLoop(w, a, b);
    assert a.frame.labels + ls + [Label(b.frame.pc, |b.frame.stack|, 0)]
        == a.frame.labels + (ls + [Label(b.frame.pc, |b.frame.stack|, 0)]);
  }

  lemma GoEnd(w: World, a: Config, off: nat, ls: seq<Label>, l: Label, vs: seq<Value>, m: Mem)
    requires a.Run? && Runs(w, a, Within(a, off, ls + [l], vs, m)) && OpAt(w, a, off, End)
    ensures Runs(w, a, Within(a, off + 1, ls, vs, m))
  {
    var b := Within(a, off, ls + [l], vs, m);
    assert b.frame.labels == (a.frame.labels + ls) + [l];
    DoEnd(w, a, b);
  }

  // Branching to one of the extra labels, which kept exactly the operands of `a`.
  lemma BranchWithin(a: Config, off: nat, ls: seq<Label>, vs: seq<Value>, m: Mem, l: nat, to: nat)
    requires a.Run? && l < |ls| && ls[|ls| - 1 - l] == Label(a.frame.pc + to, |a.frame.stack|, 0)
    ensures CanBranch(Within(a, off, ls, vs, m).frame, l)
    ensures Run(BranchTo(Within(a, off, ls, vs, m).frame, l), a.callers, m.globals, m.out)
         == Within(a, to, ls[..|ls| - 1 - l], [], m)
  {
    var f := Within(a, off, ls, vs, m).frame;
    assert f.labels[|f.labels| - 1 - l] == ls[|ls| - 1 - l];
    assert f.labels[..|f.labels| - 1 - l] == a.frame.labels + ls[..|ls| - 1 - l];
    assert f.stack[..|a.frame.stack|] == a.frame.stack;
    assert f.stack[|f.stack|..] == [];
    assert a.frame.stack + [] == a.frame.stack;
  }

  lemma GoBr(w: World, a: Config, off: nat, ls: seq<Label>, vs: seq<Value>, m: Mem, l: nat, to: nat)
    requires a.Run? && Runs(w, a, Within(a, off, ls, vs, m)) && OpAt(w, a, off, Br(l))
    requires l < |ls| && ls[|ls| - 1 - l] == Label(a.frame.pc + to, |a.frame.stack|, 0)
    ensures Runs(w, a, Within(a, to, ls[..|ls| - 1 - l], [], m))
  {
    BranchWithin(a, off, ls, vs, m, l, to);
    DoBr(w, a, Within(a, off, ls, vs, m), l);
  }

  lemma GoBrIf(w: World, a: Config, off: nat, ls: seq<Label>, vs: seq<Value>, v: Value, m: Mem, l: nat, to: nat)
    requires a.Run? && Runs(w, a, Within(a, off, ls, vs + [v], m)) && OpAt(w, a, off, BrIf(l))
    requires l < |ls| && ls[|ls| - 1 - l] == Label(a.frame.pc + to, |a.frame.stack|, 0)
    ensures Runs(w, a, if w.c.prims.truthy(v) then Within(a, to, ls[..|ls| - 1 - l], [], m) else Within(a, off + 1, ls, vs, m))
  {
    var b := Within(a, off, ls, vs + [v], m);
    PopWithin(a, off, ls, vs, v, m);
    BranchWithin(a, off, ls, vs, m, l, to);
    BranchWithin(a, off + 1, ls, vs, m, l, to);
    DoBrIf(w, a, b, l);
    assert b.frame.(stack := Popped(b).frame.stack) == Within(a, off, ls, vs, m).frame;
  }
}
