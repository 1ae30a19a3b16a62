// Control constructs on the machine: how conditionals and loops are entered and left.
module IrControl {
  import opened Wrappers
  import opened Syntax
  import opened Values
  import opened IrMachine
  import opened IrCodegen
  import opened IrBrackets
  import opened IrRelation
  import opened IrSteps

  // ---- conditionals, at offset `off` of fragment `a` ----

  function IfLabel(a: Config, off: nat, thn: seq<Instr>, els: seq<Instr>): Label
    requires a.Run?
  {
    Label(a.frame.pc + off + |IfElse(thn, els)|, |a.frame.stack|, 1)
  }

  lemma IfEnter(w: World, a: Config, off: nat, v: Value, m: Mem, thn: seq<Instr>, els: seq<Instr>)
    requires a.Run? && At(w, a.frame.(pc := a.frame.pc + off), IfElse(thn, els)) && Balanced(thn) && Balanced(els)
    requires Runs(w, a, Within(a, off, [], [v], m))
    ensures Runs(w, a, Within(a, off + (if w.c.prims.truthy(v) then 1 else |thn| + 2), [IfLabel(a, off, thn, els)], [], m))
  {
    hide Runs, At, Balanced, IfElse;
    var b := Within(a, off, [], [v], m);
    AtMoved(w, a.frame.(pc := a.frame.pc + off), b.frame, IfElse(thn, els));
    PopWithin(a, off, [], [], v, m);
    assert [] + [v] == [v];
    assert a.frame.stack + [] == a.frame.stack && a.frame.labels + [] == a.frame.labels;
    DoIf(w, a, b, thn, els);
    var to := off + (if w.c.prims.truthy(v) then 1 else |thn| + 2);
    assert b.frame.stack[..|b.frame.stack| - 1] == a.frame.stack;
    assert Branch(b, w.c.prims.truthy(v), thn, els) == Within(a, to, [IfLabel(a, off, thn, els)], [], m);
  }

  // The then-branch has left its value.
  lemma IfThenLeave(w: World, a: Config, off: nat, v: Value, m: Mem, thn: seq<Instr>, els: seq<Instr>)
    requires a.Run? && At(w, a.frame.(pc := a.frame.pc + off), IfElse(thn, els)) && Balanced(thn) && Balanced(els)
    requires Runs(w, a, Within(a, off + 1 + |thn|, [IfLabel(a, off, thn, els)], [v], m))
    ensures Runs(w, a, Within(a, off + |IfElse(thn, els)|, [], [v], m))
  {
    hide Runs, At, Balanced, IfElse;
    var b := Within(a, off + 1 + |thn|, [IfLabel(a, off, thn, els)], [v], m);
    DoElse(w, a, b, a.frame.(pc := a.frame.pc + off), thn, els);
    assert b.frame.labels[..|b.frame.labels| - 1] == a.frame.labels + [];
    assert Joined(b, a.frame.pc + off + |IfElse(thn, els)|) == Within(a, off + |IfElse(thn, els)|, [], [v], m);
  }

  // The else-branch has left its value.
  lemma IfElseLeave(w: World, a: Config, off: nat, v: Value, m: Mem, thn: seq<Instr>, els: seq<Instr>)
    requires a.Run? && At(w, a.frame.(pc := a.frame.pc + off), IfElse(thn, els))
    requires Runs(w, a, Within(a, off + 2 + |thn| + |els|, [IfLabel(a, off, thn, els)], [v], m))
    ensures Runs(w, a, Within(a, off + |IfElse(thn, els)|, [], [v], m))
  {
    hide Runs, At;
    IfParts(w, a.frame.(pc := a.frame.pc + off), thn, els);
    assert [] + [IfLabel(a, off, thn, els)] == [IfLabel(a, off, thn, els)];
    GoEnd(w, a, off + 2 + |thn| + |els|, [], IfLabel(a, off, thn, els), [v], m);
  }

  // A branch of the conditional ends as `o`; so does the conditional.
  lemma IfBranchDone(w: World, k: Option<nat>, a: Config, off: nat, m0: Mem, thn: seq<Instr>, els: seq<Instr>, taken: bool,
                     o: Outcome, m: Mem)
    requires a.Run? && At(w, a.frame.(pc := a.frame.pc + off), IfElse(thn, els)) && Balanced(thn) && Balanced(els)
    requires LabelsOk(a.frame, k) && |m0.locals| == |a.frame.locals|
    requires var b := Within(a, off + (if taken then 1 else |thn| + 2), [IfLabel(a, off, thn, els)], [], m0);
      Runs(w, a, b) && Does(w, Deeper(k, 1), b, if taken then |thn| else |els|, o, if o.Norm? then [o.v] else [], m)
    ensures Does(w, k, a, off + |IfElse(thn, els)|, o, if o.Norm? then [o.v] else [], m)
  {
    hide Runs, At, Balanced, LabelsOk, IfElse, Does;
    var to := off + (if taken then 1 else |thn| + 2);
    var n := if taken then |thn| else |els|;
    var ls := [IfLabel(a, off, thn, els)];
    var b := Within(a, to, ls, [], m0);
    if o.Norm? {
      DoesNorm(w, Deeper(k, 1), b, n, o, [o.v], m);
      RunsTrans(w, a, b, Next(b, n, [o.v], m));
      NextWithin(a, to, ls, [], m0, n, [o.v], m);
      assert [] + [o.v] == [o.v];
      if taken {
        IfThenLeave(w, a, off, o.v, m, thn, els);
      } else {
        IfElseLeave(w, a, off, o.v, m, thn, els);
      }
      WithinNext(a, off + |IfElse(thn, els)|, [o.v], m);
      DoesNorm(w, k, a, off + |IfElse(thn, els)|, o, [o.v], m);
    } else {
      WithinInside(a, to, ls, [], m0);
      AbruptInside(w, k, a, b, 1, o, m, off + |IfElse(thn, els)|, n, [], []);
    }
  }

  // ---- loops, at the start of fragment `a` ----

  // The labels inside the loop: the block that `break` leaves and the loop that `continue` repeats.
  function LoopLabels(a: Config, body: seq<Instr>): seq<Label>
    requires a.Run?
  {
    [Label(a.frame.pc + |InLoop(body)|, |a.frame.stack|, 0), Label(a.frame.pc + 1, |a.frame.stack|, 0)]
  }

  // About to execute the `Loop` instruction, and just past it.
  function Head(a: Config, body: seq<Instr>, m: Mem): Config
    requires a.Run?
  {
    Within(a, 1, LoopLabels(a, body)[..1], [], m)
  }

  function Iter(a: Config, body: seq<Instr>, m: Mem): Config
    requires a.Run?
  {
    Within(a, 2, LoopLabels(a, body), [], m)
  }

  lemma LoopParts(w: World, a: Config, body: seq<Instr>)
    requires a.Run? && At(w, a.frame, InLoop(body))
    ensures At(w, a.frame, [OpenBlock] + ([OpenLoop] + body + [End]) + [End])
    ensures OpAt(w, a, 1, OpenLoop)
    ensures At(w, a.frame.(pc := a.frame.pc + 2), body)
  {
    hide Segment;
    assert InLoop(body) == [OpenBlock] + ([OpenLoop] + body + [End]) + [End];
    assert InLoop(body) == [OpenBlock, OpenLoop] + (body + [End, End]);
    Fetch(w, a.frame, InLoop(body), 1);
    Split(w, a.frame, [OpenBlock, OpenLoop], body + [End, End]);
    Split(w, a.frame.(pc := a.frame.pc + 2), body, [End, End]);
  }

  lemma LoopEnter(w: World, a: Config, body: seq<Instr>)
    requires a.Run? && At(w, a.frame, InLoop(body)) && Balanced(body)
    ensures Runs(w, a, Head(a, body, MemOf(a)))
  {
    hide Runs, At, Balanced;
    var m := MemOf(a);
    LoopParts(w, a, body);
    InLoopBalanced(body);
    RunsRefl(w, a);
    assert a.frame.stack + [] == a.frame.stack && a.frame.labels + [] == a.frame.labels;
    assert Within(a, 0, [], [], m) == a;
    GoBlock(w, a, 0, [], [], m, [OpenLoop] + body + [End]);
    assert [] + [Label(a.frame.pc + 0 + |[OpenLoop] + body + [End]| + 2, |a.frame.stack + []|, 0)] == LoopLabels(a, body)[..1];
  }

  lemma LoopIterate(w: World, a: Config, body: seq<Instr>, m: Mem)
    requires a.Run? && At(w, a.frame, InLoop(body)) && Runs(w, a, Head(a, body, m))
    ensures Runs(w, a, Iter(a, body, m))
  {
    hide Runs, At;
    LoopParts(w, a, body);
    assert a.frame.stack + [] == a.frame.stack;
    GoLoop(w, a, 1, LoopLabels(a, body)[..1], [], m);
    assert LoopLabels(a, body)[..1] + [Label(a.frame.pc + 1, |a.frame.stack|, 0)] == LoopLabels(a, body);
  }

  // Anywhere in the loop body, with nothing of this iteration on the stack.
  lemma IterLabels(a: Config, body: seq<Instr>, off: nat, m: Mem)
    requires a.Run?
    ensures LabelsOk(Within(a, off, LoopLabels(a, body), [], m).frame, Some(0))
  {
    var ls := LoopLabels(a, body);
    var f := Within(a, off, ls, [], m).frame;
    assert f.labels[|f.labels| - 1] == ls[1] && f.labels[|f.labels| - 2] == ls[0];
  }

  // Where `break` and `continue` go.
  lemma IterJump(w: World, a: Config, body: seq<Instr>, off: nat, m0: Mem, n: nat, o: Outcome, vals: seq<Value>, m: Mem)
    requires a.Run? && (o.Brk? || o.Cont?) && Runs(w, a, Within(a, off, LoopLabels(a, body), [], m0))
    requires Does(w, Some(0), Within(a, off, LoopLabels(a, body), [], m0), n, o, vals, m)
    ensures o.Brk? ==> Runs(w, a, Within(a, |InLoop(body)|, [], [], m))
    ensures o.Cont? ==> Runs(w, a, Head(a, body, m))
  {
    hide Runs, LabelsOk;
    var ls := LoopLabels(a, body);
    var b := Within(a, off, ls, [], m0);
    RunsTrans(w, a, b, Landing(o, b, n, vals, Some(0), m));
    assert b.frame.(locals := m.locals) == Within(a, off, ls, [], m).frame;
    if o.Brk? {
      BranchWithin(a, off, ls, [], m, 1, |InLoop(body)|);
      assert ls[..0] == [];
    } else {
      BranchWithin(a, off, ls, [], m, 0, 1);
    }
  }

  // Returning or throwing from inside the loop.
  lemma IterLeave(w: World, k: Option<nat>, a: Config, body: seq<Instr>, off: nat, m0: Mem, n: nat, o: Outcome, vals: seq<Value>, m: Mem)
    requires a.Run? && (o.Ret? || o.Thrown?) && LabelsOk(a.frame, k) && |m0.locals| == |a.frame.locals|
    requires Runs(w, a, Within(a, off, LoopLabels(a, body), [], m0))
    requires Does(w, Some(0), Within(a, off, LoopLabels(a, body), [], m0), n, o, vals, m)
    ensures Does(w, k, a, |InLoop(body)|, o, [], m)
  {
    hide Runs, LabelsOk;
    var b := Within(a, off, LoopLabels(a, body), [], m0);
    RunsTrans(w, a, b, Landing(o, b, n, vals, Some(0), m));
  }

  // The loop is over.
  lemma LoopExit(w: World, k: Option<nat>, a: Config, body: seq<Instr>, m: Mem)
    requires a.Run? && LabelsOk(a.frame, k) && |m.locals| == |a.frame.locals|
    requires Runs(w, a, Within(a, |InLoop(body)|, [], [], m))
    ensures Does(w, k, a, |InLoop(body)|, Norm(Null), [], m)
  {
    hide Runs, LabelsOk;
    WithinNext(a, |InLoop(body)|, [], m);
    DoesNorm(w, k, a, |InLoop(body)|, Norm(Null), [], m);
  }

  // The branch back to the head that ends an iteration.
  lemma LoopBack(w: World, a: Config, body: seq<Instr>, off: nat, m: Mem)
    requires a.Run? && OpAt(w, a, off, Br(0)) && Runs(w, a, Within(a, off, LoopLabels(a, body), [], m))
    ensures Runs(w, a, Head(a, body, m))
  {
    hide Runs;
    GoBr(w, a, off, LoopLabels(a, body), [], m, 0, 1);
  }

  // The test of a while or do-while loop: leave when the condition is false.
  lemma LoopTest(w: World, a: Config, body: seq<Instr>, off: nat, v: Value, m: Mem)
    requires a.Run? && OpAt(w, a, off, BoolNot) && OpAt(w, a, off + 1, BrIf(1)) && w.c.prims.Valid()
    requires Runs(w, a, Within(a, off, LoopLabels(a, body), [v], m))
    ensures Runs(w, a, if w.c.prims.truthy(v) then Within(a, off + 2, LoopLabels(a, body), [], m)
                       else Within(a, |InLoop(body)|, [], [], m))
  {
    hide Runs;
    var ls := LoopLabels(a, body);
    assert [] + [v] == [v];
    GoNot(w, a, off, ls, [], v, m);
    GoBrIf(w, a, off + 1, ls, [], Bool(!w.c.prims.truthy(v)), m, 1, |InLoop(body)|);
    assert ls[..0] == [];
  }
}
