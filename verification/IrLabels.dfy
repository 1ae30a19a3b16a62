// The compiler's control bookkeeping: a depth counter, a stack of loop contexts, and
// labels computed by subtraction.  Every branch it emits resolves to the construct the
// program's shape asks for, in every function that compiles.
module IrLabels {
  import opened Wrappers
  import opened IrShape

  datatype LoopContext = LoopContext(breakDepth: nat, continueDepth: nat)

  // The innermost loop's context gives the depths of that loop's block and loop.
  ghost predicate Aims(loops: seq<LoopContext>, open: seq<Opener>, inner: Option<nat>) {
    && (loops == [] <==> inner.None?)
    && (loops != [] ==>
          var top := loops[|loops| - 1];
          && 0 < top.breakDepth <= |open| && open[top.breakDepth - 1] == Opener(KBlock, inner.value)
          && 0 < top.continueDepth <= |open| && open[top.continueDepth - 1] == Opener(KLoop, inner.value))
  }

  function SaturatingSub(a: nat, b: nat): nat {
    if a >= b then a - b else 0
  }

  lemma ReadMore(code: seq<Ins>, marks: seq<Mark>, i: Ins, m: Mark)
    requires Read(code, marks).Some? && |code| == |marks|
    ensures Read(code + [i], marks + [m]) == Take(i, m, Read(code, marks).value)
  {
    assert (code + [i])[..|code|] == code && (marks + [m])[..|marks|] == marks;
  }

  lemma {:induction false} ReadLength(code: seq<Ins>, marks: seq<Mark>)
    requires Read(code, marks).Some?
    ensures |code| == |marks|
  {
    if code != [] && marks != [] { ReadLength(code[..|code| - 1], marks[..|marks| - 1]); }
  }

  lemma AimsNone(loops: seq<LoopContext>, open: seq<Opener>, inner: Option<nat>)
    requires Aims(loops, open, inner)
    ensures inner.None? <==> loops == []
  {
  }

  lemma CatchMeans(a: Arm)
    ensures CatchesAll(a) <==> a.catchAll && a.guard.None?
  {
  }

  // Constructs opened later do not hide the innermost loop.
  lemma AimsDeeper(loops: seq<LoopContext>, open: seq<Opener>, inner: Option<nat>, more: seq<Opener>)
    requires Aims(loops, open, inner)
    ensures Aims(loops, open + more, inner)
  {
  }

  // The code of a function resolves every label of its body's shape and closes all it opens.
  ghost predicate Realizes(code: seq<Ins>, body: Node) {
    Read(code, Shape(body, None, 0).marks) == Some([])
  }

  // Every function but those still being compiled realizes its body.
  ghost predicate AllRead(functions: seq<seq<Ins>>, bodies: seq<Node>, pending: set<nat>) {
    |functions| == |bodies| && forall i: nat :: i < |functions| && i !in pending ==> Realizes(functions[i], bodies[i])
  }

  class Compiler {
    var functions: seq<seq<Ins>>
    var instructions: seq<Ins>
    var loopStack: seq<LoopContext>
    var blockDepth: nat
    // What the code of the current function is for, what is open at its end, and the function bodies met so far.
    ghost var marks: seq<Mark>
    ghost var open: seq<Opener>
    ghost var bodies: seq<Node>
    ghost var pending: set<nat>

    ghost predicate Valid()
      reads this
    {
      && Read(instructions, marks) == Some(open) && |instructions| == |marks|
      && blockDepth == |open|
      && AllRead(functions, bodies, pending)
    }

    constructor ()
      ensures Valid() && functions == [] && instructions == [] && loopStack == [] && open == [] && marks == [] && bodies == [] && pending == {}
    {
      functions, instructions, loopStack, blockDepth := [], [], [], 0;
      marks, open, bodies, pending := [], [], [], {};
    }

    method Emit(i: Ins, ghost m: Mark)
      requires Valid() && Take(i, m, open).Some?
      modifies this`instructions, this`blockDepth, this`marks, this`open
      ensures Valid() && instructions == old(instructions) + [i]
      ensures marks == old(marks) + [m] && open == Take(i, m, old(open)).value
    {
      ReadMore(instructions, marks, i, m);
      if i == Block || i == Loop || i == If {
        blockDepth := blockDepth + 1;
      } else if i == End {
        blockDepth := SaturatingSub(blockDepth, 1);
      }
      instructions := instructions + [i];
      marks := marks + [m];
      open := Take(i, m, open).value;
    }

    method EmitOps(n: nat)
      requires Valid()
      modifies this`instructions, this`blockDepth, this`marks, this`open
      ensures Valid() && marks == old(marks) + Ops(n) && open == old(open)
    {
      for i := 0 to n
        invariant Valid() && marks == old(marks) + Ops(i) && open == old(open)
      {
        Emit(Do(Quiet), Works(Quiet));
      }
    }

    method EmitActs(names: seq<nat>)
      requires Valid()
      modifies this`instructions, this`blockDepth, this`marks, this`open
      ensures Valid() && marks == old(marks) + Acts(names) && open == old(open)
    {
      for i := 0 to |names|
        invariant Valid() && marks == old(marks) + Acts(names[..i]) && open == old(open)
      {
        assert names[..i + 1][..i] == names[..i];
        Emit(Do(Act(names[i])), Works(Act(names[i])));
      }
      assert names[..|names|] == names;
    }

    method EmitNot()
      requires Valid()
      modifies this`instructions, this`blockDepth, this`marks, this`open
      ensures Valid() && marks == old(marks) + NOT && open == old(open)
    {
      Emit(Do(Negate), Works(Negate));
    }

    // The counter goes to the next element.
    method EmitStep(ops: nat)
      requires Valid()
      modifies this`instructions, this`blockDepth, this`marks, this`open
      ensures Valid() && marks == old(marks) + (Ops(ops) + STEP) && open == old(open)
    {
      EmitOps(ops);
      Emit(Do(Advance), Works(Advance));
    }

    // Opens a loop and its context.
    method OpenLoop(ghost id: nat) returns (context: LoopContext)
      requires Valid()
      modifies this`instructions, this`blockDepth, this`marks, this`open, this`loopStack
      ensures Valid() && marks == old(marks) + LoopHead(id)
      ensures open == old(open) + [Opener(KBlock, id), Opener(KLoop, id)]
      ensures loopStack == old(loopStack) + [context] && Aims(loopStack, open, Some(id))
      ensures context == LoopContext(|old(open)| + 1, |old(open)| + 2)
    {
      Emit(Block, Opens(Opener(KBlock, id)));
      var breakDepth := blockDepth;
      Emit(Loop, Opens(Opener(KLoop, id)));
      context := LoopContext(breakDepth, blockDepth);
      loopStack := loopStack + [context];
    }

    // The conditional branch out of the loop.
    method EmitExit(context: LoopContext, ghost id: nat)
      requires Valid() && 0 < context.breakDepth <= |open| && open[context.breakDepth - 1] == Opener(KBlock, id)
      modifies this`instructions, this`blockDepth, this`marks, this`open
      ensures Valid() && marks == old(marks) + [Leaves(id)] && open == old(open)
    {
      Emit(BrIf(SaturatingSub(blockDepth, context.breakDepth)), Leaves(id));
    }

    // The branch back, the two ends, and the end of the context.
    method CloseLoop(context: LoopContext, ghost id: nat, ghost outer: seq<Opener>)
      requires Valid() && loopStack != [] && open == outer + [Opener(KBlock, id), Opener(KLoop, id)]
      requires context.continueDepth == |outer| + 2
      modifies this`instructions, this`blockDepth, this`marks, this`open, this`loopStack
      ensures Valid() && marks == old(marks) + LoopTail(id) && open == outer
      ensures loopStack == old(loopStack[..|loopStack| - 1])
    {
      Emit(Br(SaturatingSub(blockDepth, context.continueDepth)), Jumps(false, Opener(KLoop, id)));
      Emit(End, Closes);
      Emit(End, Closes);
      loopStack := loopStack[..|loopStack| - 1];
    }

    // What every compile method keeps and adds.
    twostate predicate Adds(new s: Shaped)
      reads this
    {
      && Valid() && marks == old(marks) + s.marks && open == old(open) && loopStack == old(loopStack)
      && bodies == old(bodies) + s.bodies && pending == old(pending)
    }

    method Compile(n: Node, ghost inner: Option<nat>, ghost id: nat) returns (ok: bool)
      requires Valid() && Aims(loopStack, open, inner)
      modifies this
      ensures ok <==> !Stray(n, inner.Some?)
      ensures ok ==> Adds(Shape(n, inner, id))
      decreases n, 3
    {
      match n
      case Plain(acts) => EmitActs(acts); ok := true;
      case Many(nodes) => ok := CompileAll(nodes, inner, id);
      case Branch(_, _, _) => ok := CompileBranch(n, inner, id);
      case Logic(_, _, _) => ok := CompileLogic(n, inner, id);
      case Coalesce(_, _) => ok := CompileCoalesce(n, inner, id);
      case While(_, _) => ok := CompileWhile(n, inner, id);
      case Infinite(_) => ok := CompileInfinite(n, inner, id);
      case DoWhile(_, _) => ok := CompileDoWhile(n, inner, id);
      case CFor(_, _, _, _) => ok := CompileCFor(n, inner, id);
      case For(_, _, _) => ok := CompileFor(n, inner, id);
      case Comprehension(_, _, _, _) => ok := CompileComprehension(n, inner, id);
      case Match(_, _) => ok := CompileMatch(n, inner, id);
      case Try(_, _, _, _) => ok := CompileTry(n, inner, id);
      case Break(_) => ok := CompileBreak(n, inner, id);
      case Continue => ok := CompileContinue(n, inner, id);
      case Function(_, _) => ok := CompileFunction(n, inner, id);
    }

    method CompileAll(nodes: seq<Node>, ghost inner: Option<nat>, ghost id: nat) returns (ok: bool)
      requires Valid() && Aims(loopStack, open, inner)
      modifies this
      ensures ok <==> !StrayAny(nodes, inner.Some?)
      ensures ok ==> Adds(ShapeAll(nodes, inner, id))
      decreases nodes, 0
    {
      hide Aims, Shape, ShapeAll, Stray, StrayAny, Read, AllRead, AllTo;
      ok := true;
      ghost var next, done: seq<Mark>, found: seq<Node> := id, [], [];
      var i := 0;
      AllFirst(nodes, inner, id);
      while i < |nodes|
        invariant 0 <= i <= |nodes| && Valid() && open == old(open) && loopStack == old(loopStack) && pending == old(pending)
        invariant marks == old(marks) + done && bodies == old(bodies) + found
        invariant AllTo(nodes, inner, id, i, next, done, found)
      {
        AllNext(nodes, inner, id, i, next, done, found);
        ok := Compile(nodes[i], inner, next);
        if !ok { return; }
        ghost var one := Shape(nodes[i], inner, next);
        MoreMarks(old(marks), done, one.marks);
        MoreBodies(old(bodies), found, one.bodies);
        done, found, next := done + one.marks, found + one.bodies, one.next;
        i := i + 1;
      }
      AllLast(nodes, inner, id, i, next, done, found);
    }

    // ---- conditionals ----

    method OpenIf(ghost id: nat)
      requires Valid()
      modifies this`instructions, this`blockDepth, this`marks, this`open
      ensures Valid() && marks == old(marks) + [Opens(Opener(KIf, id))] && open == old(open) + [Opener(KIf, id)]
    {
      Emit(If, Opens(Opener(KIf, id)));
    }

    method TurnIf(ghost id: nat, ghost outer: seq<Opener>)
      requires Valid() && open == outer + [Opener(KIf, id)]
      modifies this`instructions, this`blockDepth, this`marks, this`open
      ensures Valid() && marks == old(marks) + [Turns] && open == outer + [Opener(KElse, id)]
    {
      Emit(Else, Turns);
    }

    method CloseIf(ghost outer: seq<Opener>)
      requires Valid() && |open| == |outer| + 1 && open[..|outer|] == outer
      modifies this`instructions, this`blockDepth, this`marks, this`open
      ensures Valid() && marks == old(marks) + [Closes] && open == outer
    {
      Emit(End, Closes);
    }

    // The else part; null stands in for a missing one.
    method CompileDefault(n: Option<Node>, ghost inner: Option<nat>, ghost id: nat) returns (ok: bool)
      requires Valid() && Aims(loopStack, open, inner)
      modifies this
      ensures ok <==> !StrayOption(n, inner.Some?)
      ensures ok ==> Adds(ShapeOption(n, inner, id, Ops(1), []))
      decreases n, 4
    {
      hide Aims, Shape, Stray, Read, AllRead;
      if n.None? {
        EmitOps(1);
        return true;
      }
      ok := Compile(n.value, inner, id);
    }

    method CompileBranch(n: Node, ghost inner: Option<nat>, ghost id: nat) returns (ok: bool)
      requires n.Branch? && Valid() && Aims(loopStack, open, inner)
      modifies this
      ensures ok <==> !Stray(n, inner.Some?)
      ensures ok ==> Adds(Shape(n, inner, id))
      decreases n, 2
    {
      hide Aims, Shape, ShapeOption, ShapeAll, ShapeArms, Stray, Read, AllRead, Ops, LoopHead, LoopTail, Leaves;
      ghost var before, outer := marks, open;
      BranchShape(n, inner, id);
      ok := Compile(n.cond, inner, id + 1);
      if !ok { return; }
      ghost var c := Shape(n.cond, inner, id + 1);
      OpenIf(id);
      AimsDeeper(loopStack, outer, inner, [Opener(KIf, id)]);
      ok := Compile(n.thn, inner, c.next);
      if !ok { return; }
      ghost var t := Shape(n.thn, inner, c.next);
      TurnIf(id, outer);
      AimsDeeper(loopStack, outer, inner, [Opener(KElse, id)]);
      ok := CompileDefault(n.els, inner, t.next);
      if !ok { return; }
      ghost var f := ShapeOption(n.els, inner, t.next, Ops(1), []);
      CloseIf(outer);
      BranchJoin(before, id, c.marks, t.marks, f.marks);
    }

    // The scratch local is set, two blocks open, and the inner one is left on a decided operand.
    method OpenTest(ghost id: nat, isAnd: bool)
      requires Valid()
      modifies this`instructions, this`blockDepth, this`marks, this`open
      ensures Valid() && open == old(open) + [Opener(KBlock, id), Opener(KBlock, id + 1)]
      ensures marks == old(marks) + Ops(1) + [Opens(Opener(KBlock, id))] + [Opens(Opener(KBlock, id + 1))] + LogicTest(isAnd) + [Leaves(id + 1)]
    {
      hide Read, AllRead, Ops;
      EmitOps(1);
      Emit(Block, Opens(Opener(KBlock, id)));
      Emit(Block, Opens(Opener(KBlock, id + 1)));
      EmitOps(1);
      if isAnd { EmitNot(); }
      Emit(BrIf(0), Leaves(id + 1));
    }

    method CloseTest(ghost outer: seq<Opener>)
      requires Valid() && |open| == |outer| + 2 && open[..|outer|] == outer
      modifies this`instructions, this`blockDepth, this`marks, this`open
      ensures Valid() && open == outer
      ensures marks == old(marks) + Ops(1) + [Closes] + [Closes] + Ops(1)
    {
      hide Read, AllRead, Ops;
      EmitOps(1);
      Emit(End, Closes);
      Emit(End, Closes);
      EmitOps(1);
    }

    method CompileLogic(n: Node, ghost inner: Option<nat>, ghost id: nat) returns (ok: bool)
      requires n.Logic? && Valid() && Aims(loopStack, open, inner)
      modifies this
      ensures ok <==> !Stray(n, inner.Some?)
      ensures ok ==> Adds(Shape(n, inner, id))
      decreases n, 2
    {
      hide Aims, Shape, ShapeOption, ShapeAll, ShapeArms, Stray, Read, AllRead, Ops, LoopHead, LoopTail, Leaves;
      ghost var before, outer := marks, open;
      LogicShape(n, inner, id);
      ok := Compile(n.left, inner, id + 2);
      if !ok { return; }
      ghost var l := Shape(n.left, inner, id + 2);
      OpenTest(id, n.isAnd);
      AimsDeeper(loopStack, outer, inner, [Opener(KBlock, id), Opener(KBlock, id + 1)]);
      ok := Compile(n.right, inner, l.next);
      if !ok { return; }
      CloseTest(outer);
      LogicJoin(before, id, n.isAnd, l.marks, Shape(n.right, inner, l.next).marks);
    }

    method CompileCoalesce(n: Node, ghost inner: Option<nat>, ghost id: nat) returns (ok: bool)
      requires n.Coalesce? && Valid() && Aims(loopStack, open, inner)
      modifies this
      ensures ok <==> !Stray(n, inner.Some?)
      ensures ok ==> Adds(Shape(n, inner, id))
      decreases n, 2
    {
      hide Aims, Shape, ShapeOption, ShapeAll, ShapeArms, Stray, Read, AllRead, Ops, LoopHead, LoopTail, Leaves;
      ghost var before, outer := marks, open;
      CoalesceShape(n, inner, id);
      ok := Compile(n.left, inner, id + 1);
      if !ok { return; }
      ghost var l := Shape(n.left, inner, id + 1);
      EmitOps(5);
      OpenIf(id);
      AimsDeeper(loopStack, outer, inner, [Opener(KIf, id)]);
      ok := Compile(n.right, inner, l.next);
      if !ok { return; }
      TurnIf(id, outer);
      EmitOps(1);
      CloseIf(outer);
      CoalesceJoin(before, id, l.marks, Shape(n.right, inner, l.next).marks);
    }

    method CompileWhile(n: Node, ghost inner: Option<nat>, ghost id: nat) returns (ok: bool)
      requires n.While? && Valid() && Aims(loopStack, open, inner)
      modifies this
      ensures ok <==> !Stray(n, inner.Some?)
      ensures ok ==> Adds(Shape(n, inner, id))
      decreases n, 2
    {
      hide Aims, Shape, ShapeOption, ShapeAll, ShapeArms, Stray, Read, AllRead, Ops, LoopHead, LoopTail, Leaves;
      ghost var before, outer := marks, open;
      WhileShape(n, inner, id);
      var context := OpenLoop(id);
      ok := Compile(n.cond, Some(id), id + 1);
      if !ok { return; }
      ghost var c := Shape(n.cond, Some(id), id + 1);
      EmitNot();
      EmitExit(context, id);
      ok := Compile(n.body, Some(id), c.next);
      if !ok { return; }
      CloseLoop(context, id, outer);
      WhileJoin(before, id, c.marks, Shape(n.body, Some(id), c.next).marks);
    }

    method CompileInfinite(n: Node, ghost inner: Option<nat>, ghost id: nat) returns (ok: bool)
      requires n.Infinite? && Valid() && Aims(loopStack, open, inner)
      modifies this
      ensures ok <==> !Stray(n, inner.Some?)
      ensures ok ==> Adds(Shape(n, inner, id))
      decreases n, 2
    {
      hide Aims, Shape, ShapeOption, ShapeAll, ShapeArms, Stray, Read, AllRead, Ops, LoopHead, LoopTail, Leaves;
      ghost var before, outer := marks, open;
      InfiniteShape(n, inner, id);
      var context := OpenLoop(id);
      ok := Compile(n.body, Some(id), id + 1);
      if !ok { return; }
      EmitOps(1);
      CloseLoop(context, id, outer);
      EmitOps(1);
      InfiniteJoin(before, id, Shape(n.body, Some(id), id + 1).marks);
    }

    method CompileDoWhile(n: Node, ghost inner: Option<nat>, ghost id: nat) returns (ok: bool)
      requires n.DoWhile? && Valid() && Aims(loopStack, open, inner)
      modifies this
      ensures ok <==> !Stray(n, inner.Some?)
      ensures ok ==> Adds(Shape(n, inner, id))
      decreases n, 2
    {
      hide Aims, Shape, ShapeOption, ShapeAll, ShapeArms, Stray, Read, AllRead, Ops, LoopHead, LoopTail, Leaves;
      ghost var before, outer := marks, open;
      DoWhileShape(n, inner, id);
      var context := OpenLoop(id);
      ok := Compile(n.body, Some(id), id + 1);
      if !ok { return; }
      ghost var b := Shape(n.body, Some(id), id + 1);
      ok := Compile(n.cond, Some(id), b.next);
      if !ok { return; }
      EmitNot();
      EmitExit(context, id);
      CloseLoop(context, id, outer);
      DoWhileJoin(before, id, b.marks, Shape(n.cond, Some(id), b.next).marks);
    }

    method CompileCFor(n: Node, ghost inner: Option<nat>, ghost id: nat) returns (ok: bool)
      requires n.CFor? && Valid() && Aims(loopStack, open, inner)
      modifies this
      ensures ok <==> !Stray(n, inner.Some?)
      ensures ok ==> Adds(Shape(n, inner, id))
      decreases n, 2
    {
      hide Aims, Shape, ShapeOption, ShapeAll, ShapeArms, Stray, Read, AllRead, Ops, LoopHead, LoopTail, Leaves;
      ghost var before, outer := marks, open;
      CForShape(n, inner, id);
      ok := Compile(n.init, inner, id + 1);
      if !ok { return; }
      ghost var i := Shape(n.init, inner, id + 1);
      var context := OpenLoop(id);
      ok := Compile(n.cond, Some(id), i.next);
      if !ok { return; }
      ghost var c := Shape(n.cond, Some(id), i.next);
      EmitNot();
      EmitExit(context, id);
      ok := Compile(n.body, Some(id), c.next);
      if !ok { return; }
      ghost var b := Shape(n.body, Some(id), c.next);
      ok := Compile(n.update, Some(id), b.next);
      if !ok { return; }
      CloseLoop(context, id, outer);
      CForJoin(before, id, i.marks, c.marks, b.marks, Shape(n.update, Some(id), b.next).marks);
    }

    method CompileFor(n: Node, ghost inner: Option<nat>, ghost id: nat) returns (ok: bool)
      requires n.For? && Valid() && Aims(loopStack, open, inner)
      modifies this
      ensures ok <==> !Stray(n, inner.Some?)
      ensures ok ==> Adds(Shape(n, inner, id))
      decreases n, 2
    {
      hide Aims, Shape, ShapeOption, ShapeAll, ShapeArms, Stray, Read, AllRead, Ops, LoopHead, LoopTail, Leaves;
      ghost var before, outer := marks, open;
      ForShape(n, inner, id);
      ok := Compile(n.iter, inner, id + 1);
      if !ok { return; }
      ghost var i := Shape(n.iter, inner, id + 1);
      EmitOps(6);
      var context := OpenLoop(id);
      EmitOps(3);
      EmitExit(context, id);
      EmitOps(3 + n.bind);
      ok := Compile(n.body, Some(id), i.next);
      if !ok { return; }
      EmitStep(3);
      CloseLoop(context, id, outer);
      ForJoin(before, id, n.bind, i.marks, Shape(n.body, Some(id), i.next).marks);
    }

    // ---- comprehensions: a loop that is no target for break and continue ----

    method OpenSilentLoop(ghost id: nat)
      requires Valid()
      modifies this`instructions, this`blockDepth, this`marks, this`open
      ensures Valid() && open == old(open) + [Opener(KBlock, id), Opener(KLoop, id)]
      ensures marks == old(marks) + (LoopHead(id) + Ops(3) + [Leaves(id)])
    {
      hide Read, AllRead, Ops;
      Emit(Block, Opens(Opener(KBlock, id)));
      Emit(Loop, Opens(Opener(KLoop, id)));
      EmitOps(3);
      Emit(BrIf(1), Leaves(id));
    }

    method CloseSilentLoop(ghost id: nat, ghost outer: seq<Opener>)
      requires Valid() && open == outer + [Opener(KBlock, id), Opener(KLoop, id)]
      modifies this`instructions, this`blockDepth, this`marks, this`open
      ensures Valid() && open == outer && marks == old(marks) + LoopTail(id)
    {
      hide Read, AllRead;
      Emit(Br(0), Jumps(false, Opener(KLoop, id)));
      Emit(End, Closes);
      Emit(End, Closes);
    }

    // The result, the elements to go through, and the loop with its element bound.
    method CompileSource(iter: Node, bind: nat, ghost inner: Option<nat>, ghost id: nat) returns (ok: bool)
      requires Valid() && Aims(loopStack, open, inner)
      modifies this
      ensures ok <==> !Stray(iter, inner.Some?)
      ensures var i := Shape(iter, inner, id + 2);
        ok ==> Valid() && marks == old(marks) + ComprehensionHead(id, bind, i.marks) && bodies == old(bodies) + i.bodies
      ensures ok ==> open == old(open) + [Opener(KBlock, id), Opener(KLoop, id)] && loopStack == old(loopStack) && pending == old(pending)
      decreases iter, 4
    {
      hide Aims, Shape, Stray, Read, AllRead, Ops, LoopHead, Leaves, ComprehensionHead;
      ghost var before := marks;
      EmitOps(2);
      ok := Compile(iter, inner, id + 2);
      if !ok { return; }
      EmitOps(8);
      OpenSilentLoop(id);
      EmitOps(4 + bind);
      SourceJoin(before, id, bind, Shape(iter, inner, id + 2).marks);
    }

    // A filter that fails goes on with the next element.
    method CompileFilter(n: Option<Node>, ghost inner: Option<nat>, ghost next: nat, ghost id: nat, ghost outer: seq<Opener>) returns (ok: bool)
      requires Valid() && Aims(loopStack, open, inner) && open == outer + [Opener(KBlock, id), Opener(KLoop, id)]
      modifies this
      ensures ok <==> !StrayOption(n, inner.Some?)
      ensures ok ==> Adds(ShapeOption(n, inner, next, [], SkipMarks(id)))
      decreases n, 4
    {
      hide Aims, Shape, Stray, Read, AllRead, SkipMarks;
      if n.None? {
        return true;
      }
      ghost var before, here := marks, open;
      ok := Compile(n.value, inner, next);
      if !ok { return; }
      EmitSkip(id, here);
      assert before + (Shape(n.value, inner, next).marks + SkipMarks(id)) == before + Shape(n.value, inner, next).marks + SkipMarks(id);
    }

    method EmitSkip(ghost id: nat, ghost here: seq<Opener>)
      requires Valid() && open == here && |here| >= 1 && here[|here| - 1] == Opener(KLoop, id)
      modifies this`instructions, this`blockDepth, this`marks, this`open
      ensures Valid() && open == here && marks == old(marks) + SkipMarks(id)
    {
      hide Read, AllRead, Ops;
      EmitNot();
      OpenIf(id + 1);
      EmitStep(4);
      Emit(Br(1), Jumps(false, Opener(KLoop, id)));
      CloseIf(here);
    }

    method CompileComprehension(n: Node, ghost inner: Option<nat>, ghost id: nat) returns (ok: bool)
      requires n.Comprehension? && Valid() && Aims(loopStack, open, inner)
      modifies this
      ensures ok <==> !Stray(n, inner.Some?)
      ensures ok ==> Adds(Shape(n, inner, id))
      decreases n, 2
    {
      hide Aims, Shape, ShapeOption, ShapeAll, ShapeArms, Stray, Read, AllRead, Ops, LoopHead, LoopTail, Leaves, SkipMarks, ComprehensionHead;
      ghost var before, outer := marks, open;
      ComprehensionShape(n, inner, id);
      ok := CompileSource(n.iter, n.bind, inner, id);
      if !ok { return; }
      ghost var i := Shape(n.iter, inner, id + 2);
      AimsDeeper(loopStack, outer, inner, [Opener(KBlock, id), Opener(KLoop, id)]);
      ok := CompileFilter(n.filter, inner, i.next, id, outer);
      if !ok { return; }
      ghost var f := ShapeOption(n.filter, inner, i.next, [], SkipMarks(id));
      EmitOps(1);
      ok := Compile(n.element, inner, f.next);
      if !ok { return; }
      EmitStep(6);
      CloseSilentLoop(id, outer);
      EmitOps(1);
      ComprehensionJoin(before, id, ComprehensionHead(id, n.bind, i.marks), f.marks, Shape(n.element, inner, f.next).marks);
    }

    method CompileTry(n: Node, ghost inner: Option<nat>, ghost id: nat) returns (ok: bool)
      requires n.Try? && Valid() && Aims(loopStack, open, inner)
      modifies this
      ensures ok <==> !Stray(n, inner.Some?)
      ensures ok ==> Adds(Shape(n, inner, id))
      decreases n, 2
    {
      hide Aims, Shape, ShapeOption, ShapeAll, ShapeArms, Stray, Read, AllRead, Ops, LoopHead, LoopTail, Leaves;
      ghost var before, outer := marks, open;
      TryShape(n, inner, id);
      ok := Compile(n.body, inner, id + 1);
      if !ok { return; }
      ghost var b := Shape(n.body, inner, id + 1);
      EmitOps(1);
      Emit(Do(False), Works(False));
      OpenIf(id);
      EmitOps(if n.binds then 2 else 0);
      AimsDeeper(loopStack, outer, inner, [Opener(KIf, id)]);
      ok := Compile(n.handler, inner, b.next);
      if !ok { return; }
      ghost var h := Shape(n.handler, inner, b.next);
      EmitOps(1);
      CloseIf(outer);
      ok := CompileDropped(n.always, inner, h.next);
      if !ok { return; }
      TryJoin(before, id, if n.binds then 2 else 0, b.marks, h.marks, ShapeOption(n.always, inner, h.next, [], Ops(1)).marks);
    }

    // An optional part whose value is dropped.
    method CompileDropped(n: Option<Node>, ghost inner: Option<nat>, ghost id: nat) returns (ok: bool)
      requires Valid() && Aims(loopStack, open, inner)
      modifies this
      ensures ok <==> !StrayOption(n, inner.Some?)
      ensures ok ==> Adds(ShapeOption(n, inner, id, [], Ops(1)))
      decreases n, 4
    {
      hide Aims, Shape, Stray, Read, AllRead, Ops;
      if n.None? {
        return true;
      }
      ghost var before := marks;
      ok := Compile(n.value, inner, id);
      if !ok { return; }
      EmitOps(1);
      assert before + (Shape(n.value, inner, id).marks + Ops(1)) == before + Shape(n.value, inner, id).marks + Ops(1);
    }

    // ---- jumps ----

    method CompileBreak(n: Node, ghost inner: Option<nat>, ghost id: nat) returns (ok: bool)
      requires n.Break? && Valid() && Aims(loopStack, open, inner)
      modifies this
      ensures ok <==> !Stray(n, inner.Some?)
      ensures ok ==> Adds(Shape(n, inner, id))
      decreases n, 2
    {
      hide Aims, Shape, ShapeOption, ShapeAll, ShapeArms, Stray, Read, AllRead, Ops, LoopHead, LoopTail, Leaves;
      ghost var before, outer := marks, open;
      JumpShape(n, inner, id);
      ok := CompileDropped(n.result, inner, id);
      if !ok { return; }
      if loopStack == [] {
        AimsNone(loopStack, open, inner);
        return false;
      }
      JumpOut(inner);
      ghost var v := ShapeOption(n.result, inner, id, [], Ops(1)).marks;
      assert before + v + [Jumps(false, Opener(KBlock, inner.value))] == before + (v + [Jumps(false, Opener(KBlock, inner.value))]);
    }

    method JumpOut(ghost inner: Option<nat>)
      requires Valid() && Aims(loopStack, open, inner) && loopStack != []
      modifies this`instructions, this`blockDepth, this`marks, this`open
      ensures inner.Some? && Valid() && open == old(open) && marks == old(marks) + [Jumps(false, Opener(KBlock, inner.value))]
    {
      Emit(Br(SaturatingSub(blockDepth, loopStack[|loopStack| - 1].breakDepth)), Jumps(false, Opener(KBlock, inner.value)));
    }

    method JumpBack(ghost inner: Option<nat>)
      requires Valid() && Aims(loopStack, open, inner) && loopStack != []
      modifies this`instructions, this`blockDepth, this`marks, this`open
      ensures inner.Some? && Valid() && open == old(open) && marks == old(marks) + [Jumps(false, Opener(KLoop, inner.value))]
    {
      Emit(Br(SaturatingSub(blockDepth, loopStack[|loopStack| - 1].continueDepth)), Jumps(false, Opener(KLoop, inner.value)));
    }

    method CompileContinue(n: Node, ghost inner: Option<nat>, ghost id: nat) returns (ok: bool)
      requires n.Continue? && Valid() && Aims(loopStack, open, inner)
      modifies this
      ensures ok <==> !Stray(n, inner.Some?)
      ensures ok ==> Adds(Shape(n, inner, id))
    {
      hide Aims, Shape, Stray, Read, AllRead;
      JumpShape(n, inner, id);
      if loopStack == [] {
        AimsNone(loopStack, open, inner);
        return false;
      }
      JumpBack(inner);
      ok := true;
    }

    // ---- match ----

    method CompileMatch(n: Node, ghost inner: Option<nat>, ghost id: nat) returns (ok: bool)
      requires n.Match? && Valid() && Aims(loopStack, open, inner)
      modifies this
      ensures ok <==> !Stray(n, inner.Some?)
      ensures ok ==> Adds(Shape(n, inner, id))
      decreases n, 2
    {
      hide Aims, Shape, ShapeOption, ShapeAll, ShapeArms, Stray, Read, AllRead, Ops, LoopHead, LoopTail, Leaves;
      ghost var before, outer := marks, open;
      MatchShape(n, inner, id);
      ok := Compile(n.value, inner, id);
      if !ok { return; }
      ghost var v := Shape(n.value, inner, id);
      EmitOps(3);
      ok := CompileArms(n.arms, inner, v.next);
      if !ok { return; }
      MatchJoin(before, v.marks, ShapeArms(n.arms, inner, v.next).marks);
    }

    // The arms nest; their ends are counted and emitted together.
    method CompileArms(arms: seq<Arm>, ghost inner: Option<nat>, ghost id: nat) returns (ok: bool)
      requires Valid() && Aims(loopStack, open, inner)
      modifies this
      ensures ok <==> !StrayArms(arms, inner.Some?)
      ensures ok ==> Adds(ShapeArms(arms, inner, id))
      decreases arms, 0
    {
      hide Aims, Shape, ShapeOption, ShapeAll, ShapeArm, ShapeArms, Stray, StrayArms, StrayArm, Read, AllRead, Ops, Ends, CatchesAll, ArmsLeft;
      ghost var before, outer := marks, open;
      ghost var next, done: seq<Mark>, elses: seq<Opener>, found: seq<Node> := id, [], [], [];
      var ifCount, i, ended := 0, 0, false;
      ok := true;
      ArmsStart(arms, inner, id);
      while i < |arms| && !ended
        invariant 0 <= i <= |arms| && Valid() && loopStack == old(loopStack) && pending == old(pending)
        invariant open == outer + elses && |elses| == ifCount && marks == before + done && bodies == old(bodies) + found
        invariant StrayArms(arms, inner.Some?) == (!ended && StrayArms(arms[i..], inner.Some?))
        invariant ArmsLeft(arms, inner, id, i, next, done, found, ifCount, ended)
        decreases |arms| - i, !ended
      {
        ArmStep(arms, inner, id, i, next, done, found, ifCount);
        AimsDeeper(loopStack, outer, inner, elses);
        ok := CompileArm(arms[i], i == |arms| - 1, inner, next);
        if !ok { return; }
        ghost var one := ShapeArm(arms[i], i == |arms| - 1, inner, next);
        assert before + done + one.marks == before + (done + one.marks);
        assert old(bodies) + found + one.bodies == old(bodies) + (found + one.bodies);
        CatchMeans(arms[i]);
        if arms[i].catchAll && arms[i].guard.None? {
          assert open == outer + elses;
          ended := true;
        } else {
          assert open == outer + (elses + [Opener(KElse, next)]);
          elses := elses + [Opener(KElse, next)];
          ifCount := ifCount + 1;
          i := i + 1;
        }
        done, found, next := done + one.marks, found + one.bodies, one.next;
      }
      ArmsDone(arms, inner, id, i, next, done, found, ifCount, ended);
      EmitEnds(ifCount, outer);
      assert before + done + Ends(ifCount) == before + (done + Ends(ifCount));
    }

    method EmitEnds(count: nat, ghost outer: seq<Opener>)
      requires Valid() && |open| == |outer| + count && open[..|outer|] == outer
      modifies this`instructions, this`blockDepth, this`marks, this`open
      ensures Valid() && open == outer && marks == old(marks) + Ends(count)
    {
      hide Read, AllRead;
      for k := 0 to count
        invariant Valid() && |open| == |outer| + count - k && open[..|outer|] == outer
        invariant marks == old(marks) + Ends(k)
      {
        Emit(End, Closes);
      }
    }

    // One arm; unless it catches everything it leaves its conditional open in the else part.
    method CompileArm(a: Arm, last: bool, ghost inner: Option<nat>, ghost id: nat) returns (ok: bool)
      requires Valid() && Aims(loopStack, open, inner)
      modifies this
      ensures ok <==> !StrayArm(a, inner.Some?)
      ensures ok ==> Valid() && marks == old(marks) + ShapeArm(a, last, inner, id).marks && loopStack == old(loopStack)
      ensures ok ==> pending == old(pending) && bodies == old(bodies) + ShapeArm(a, last, inner, id).bodies
      ensures ok ==> open == old(open) + if CatchesAll(a) then [] else [Opener(KElse, id)]
      decreases a, 5
    {
      hide Aims, Shape, ShapeArm, Stray, Read, AllRead, Ops;
      ghost var before, outer := marks, open;
      ArmShape(a, last, inner, id);
      EmitOps(a.ops);
      if a.catchAll && a.guard.None? {
        ok := Compile(a.body, inner, id + 2);
        if !ok { return; }
        assert before + Ops(a.ops) + Shape(a.body, inner, id + 2).marks == before + (Ops(a.ops) + Shape(a.body, inner, id + 2).marks);
        assert open == outer + [];
        return;
      }
      ghost var start := marks;
      if a.catchAll {
        ok := CompileGuarded(a, last, inner, id);
      } else if a.guard.None? {
        ok := CompileTested(a, last, inner, id);
      } else {
        ok := CompileBoth(a, last, inner, id);
      }
      if !ok { return; }
      assert before + Ops(a.ops) + ArmTest(a, last, inner, id) == before + (Ops(a.ops) + ArmTest(a, last, inner, id));
    }

    // A catch-all with a guard: the guard decides.
    method CompileGuarded(a: Arm, last: bool, ghost inner: Option<nat>, ghost id: nat) returns (ok: bool)
      requires a.catchAll && a.guard.Some? && Valid() && Aims(loopStack, open, inner)
      modifies this
      ensures ok <==> !StrayArm(a, inner.Some?)
      ensures ok ==> Valid() && marks == old(marks) + ArmTest(a, last, inner, id) && loopStack == old(loopStack)
      ensures ok ==> pending == old(pending) && bodies == old(bodies) + ArmBodies(a, inner, id)
      ensures ok ==> open == old(open) + [Opener(KElse, id)]
      decreases a, 4
    {
      hide Aims, Shape, Stray, Read, AllRead, Ops;
      ghost var outer := open;
      ok := Compile(a.guard.value, inner, id + 2);
      if !ok { return; }
      ghost var g := Shape(a.guard.value, inner, id + 2);
      OpenIf(id);
      AimsDeeper(loopStack, outer, inner, [Opener(KIf, id)]);
      ok := Compile(a.body, inner, g.next);
      if !ok { return; }
      TurnIf(id, outer);
      EmitOps(if last then 1 else 0);
      ghost var b := Shape(a.body, inner, g.next);
      assert marks == old(marks) + (g.marks + [Opens(Opener(KIf, id))] + b.marks + [Turns] + Ops(if last then 1 else 0));
    }

    // A test without a guard.
    method CompileTested(a: Arm, last: bool, ghost inner: Option<nat>, ghost id: nat) returns (ok: bool)
      requires !a.catchAll && a.guard.None? && Valid() && Aims(loopStack, open, inner)
      modifies this
      ensures ok <==> !StrayArm(a, inner.Some?)
      ensures ok ==> Valid() && marks == old(marks) + ArmTest(a, last, inner, id) && loopStack == old(loopStack)
      ensures ok ==> pending == old(pending) && bodies == old(bodies) + ArmBodies(a, inner, id)
      ensures ok ==> open == old(open) + [Opener(KElse, id)]
      decreases a, 4
    {
      hide Aims, Shape, Stray, Read, AllRead, Ops;
      ghost var outer := open;
      OpenIf(id);
      AimsDeeper(loopStack, outer, inner, [Opener(KIf, id)]);
      ok := Compile(a.body, inner, id + 2);
      if !ok { return; }
      TurnIf(id, outer);
      EmitOps(if last then 1 else 0);
      ghost var b := Shape(a.body, inner, id + 2);
      assert marks == old(marks) + ([Opens(Opener(KIf, id))] + b.marks + [Turns] + Ops(if last then 1 else 0));
    }

    // A test and then a guard: two conditionals, the inner one closed again.
    method CompileBoth(a: Arm, last: bool, ghost inner: Option<nat>, ghost id: nat) returns (ok: bool)
      requires !a.catchAll && a.guard.Some? && Valid() && Aims(loopStack, open, inner)
      modifies this
      ensures ok <==> !StrayArm(a, inner.Some?)
      ensures ok ==> Valid() && marks == old(marks) + ArmTest(a, last, inner, id) && loopStack == old(loopStack)
      ensures ok ==> pending == old(pending) && bodies == old(bodies) + ArmBodies(a, inner, id)
      ensures ok ==> open == old(open) + [Opener(KElse, id)]
      decreases a, 4
    {
      BothShape(a, last, inner, id);
      hide Aims, Shape, ShapeOption, Stray, Read, AllRead, Ops, ArmTest, ArmBodies;
      ghost var before, outer, known := marks, open, bodies;
      ok := CompileUnder(a.guard.value, inner, id + 2, id);
      if !ok { return; }
      ghost var g := Shape(a.guard.value, inner, id + 2);
      AimsDeeper(loopStack, outer, inner, [Opener(KIf, id)]);
      ok := CompileUnder(a.body, inner, g.next, id + 1);
      if !ok { return; }
      CloseBoth(last, id, outer);
      BothJoin(before, id, g.marks, Shape(a.body, inner, g.next).marks, Ops(if last then 1 else 0));
      MoreBodies(known, g.bodies, Shape(a.body, inner, g.next).bodies);
    }

    // A conditional opened and its first part.
    method CompileUnder(n: Node, ghost inner: Option<nat>, ghost next: nat, ghost id: nat) returns (ok: bool)
      requires Valid() && Aims(loopStack, open, inner)
      modifies this
      ensures ok <==> !Stray(n, inner.Some?)
      ensures ok ==> Valid() && marks == old(marks) + [Opens(Opener(KIf, id))] + Shape(n, inner, next).marks && loopStack == old(loopStack)
      ensures ok ==> open == old(open) + [Opener(KIf, id)] && pending == old(pending) && bodies == old(bodies) + Shape(n, inner, next).bodies
      decreases n, 4
    {
      hide Aims, Shape, Stray, Read, AllRead;
      AimsDeeper(loopStack, open, inner, [Opener(KIf, id)]);
      OpenIf(id);
      ok := Compile(n, inner, next);
    }

    method CloseBoth(last: bool, ghost id: nat, ghost outer: seq<Opener>)
      requires Valid() && open == outer + [Opener(KIf, id)] + [Opener(KIf, id + 1)]
      modifies this`instructions, this`blockDepth, this`marks, this`open
      ensures var default := Ops(if last then 1 else 0);
        Valid() && open == outer + [Opener(KElse, id)] && marks == old(marks) + ([Turns] + default + [Closes, Turns] + default)
    {
      hide Read, AllRead, Ops;
      ghost var mid := outer + [Opener(KIf, id)];
      TurnIf(id + 1, mid);
      EmitOps(if last then 1 else 0);
      CloseIf(mid);
      TurnIf(id, outer);
      EmitOps(if last then 1 else 0);
    }

    // ---- functions ----

    // A function is compiled with no loop around it; the outer context comes back afterwards.
    method CompileNested(body: Node) returns (ok: bool)
      requires Valid()
      modifies this
      ensures ok <==> !Stray(body, false)
      ensures ok ==> Valid() && instructions == old(instructions) && marks == old(marks) && open == old(open) && loopStack == old(loopStack)
      ensures ok ==> bodies == old(bodies) + ([body] + Shape(body, None, 0).bodies) && pending == old(pending)
      decreases body, 4
    {
      hide Aims, Shape, Stray, Read, AllRead, Realizes;
      var savedCode, savedDepth, savedLoops := instructions, blockDepth, loopStack;
      ghost var savedMarks, savedOpen, waiting := marks, open, pending;
      var idx := |functions|;
      PlaceholderRead(functions, bodies, pending, body);
      functions, bodies, pending := functions + [[]], bodies + [body], pending + {idx};
      ghost var known := bodies;
      assert known[idx] == body;
      Begin();
      ok := Compile(body, None, 0);
      if ok {
        assert marks == [] + Shape(body, None, 0).marks == Shape(body, None, 0).marks;
        assert bodies == known + Shape(body, None, 0).bodies && bodies[idx] == body;
        assert |instructions| == |marks| && Read(instructions, marks) == Some([]);
        FunctionRead(functions, bodies, pending, waiting, idx, instructions, body);
        functions, pending := functions[idx := instructions], waiting;
      }
      instructions, blockDepth, loopStack := savedCode, savedDepth, savedLoops;
      marks, open := savedMarks, savedOpen;
    }

    method Begin()
      requires AllRead(functions, bodies, pending)
      modifies this`instructions, this`blockDepth, this`loopStack, this`marks, this`open
      ensures Valid() && open == [] && marks == [] && loopStack == [] && Aims(loopStack, open, None)
    {
      instructions, blockDepth, loopStack := [], 0, [];
      marks, open := [], [];
    }

    method CompileFunction(n: Node, ghost inner: Option<nat>, ghost id: nat) returns (ok: bool)
      requires n.Function? && Valid() && Aims(loopStack, open, inner)
      modifies this
      ensures ok <==> !Stray(n, inner.Some?)
      ensures ok ==> Adds(Shape(n, inner, id))
      decreases n, 2
    {
      hide Aims, Shape, Stray, Read, AllRead, Ops;
      JumpShape(n, inner, id);
      ok := CompileNested(n.body);
      if !ok { return; }
      EmitOps(n.ops);
    }
  }

  // Compiling fails exactly on a break or continue outside every loop of its function.  Otherwise each function
  // closes all it opens, and each of its branches resolves to the block or loop that its shape names.
  method CompileProgram(program: Node) returns (ok: bool, main: seq<Ins>, functions: seq<seq<Ins>>)
    ensures ok <==> !Stray(program, false)
    ensures ok ==> Realizes(main, program)
    ensures ok ==> var bodies := Shape(program, None, 0).bodies;
      |functions| == |bodies| && forall i: nat :: i < |bodies| ==> Realizes(functions[i], bodies[i])
  {
    hide Shape, Stray, Read;
    var c := new Compiler();
    assert Aims([], [], None);
    ok := c.Compile(program, None, 0);
    main, functions := c.instructions, c.functions;
    assert ok ==> c.marks == [] + Shape(program, None, 0).marks == Shape(program, None, 0).marks;
    assert ok ==> c.bodies == [] + Shape(program, None, 0).bodies == Shape(program, None, 0).bodies;
  }

  // ---------------------------------------------------------------- the shapes, one construct at a time

  lemma BranchShape(n: Node, inner: Option<nat>, id: nat)
    requires n.Branch?
    ensures var c := Shape(n.cond, inner, id + 1);
      var t := Shape(n.thn, inner, c.next);
      var f := ShapeOption(n.els, inner, t.next, Ops(1), []);
      Shape(n, inner, id) == Shaped(BranchMarks(id, c.marks, t.marks, f.marks), f.next, c.bodies + t.bodies + f.bodies)
    ensures Stray(n, inner.Some?) == (Stray(n.cond, inner.Some?) || Stray(n.thn, inner.Some?) || StrayOption(n.els, inner.Some?))
  {
    hide BranchMarks;
  }

  lemma LogicShape(n: Node, inner: Option<nat>, id: nat)
    requires n.Logic?
    ensures var l := Shape(n.left, inner, id + 2);
      var r := Shape(n.right, inner, l.next);
      Shape(n, inner, id) == Shaped(LogicMarks(id, n.isAnd, l.marks, r.marks), r.next, l.bodies + r.bodies)
    ensures Stray(n, inner.Some?) == (Stray(n.left, inner.Some?) || Stray(n.right, inner.Some?))
  {
    hide LogicMarks;
  }

  lemma CoalesceShape(n: Node, inner: Option<nat>, id: nat)
    requires n.Coalesce?
    ensures var l := Shape(n.left, inner, id + 1);
      var r := Shape(n.right, inner, l.next);
      Shape(n, inner, id) == Shaped(CoalesceMarks(id, l.marks, r.marks), r.next, l.bodies + r.bodies)
    ensures Stray(n, inner.Some?) == (Stray(n.left, inner.Some?) || Stray(n.right, inner.Some?))
  {
    hide CoalesceMarks;
  }

  lemma WhileShape(n: Node, inner: Option<nat>, id: nat)
    requires n.While?
    ensures var c := Shape(n.cond, Some(id), id + 1);
      var b := Shape(n.body, Some(id), c.next);
      Shape(n, inner, id) == Shaped(WhileMarks(id, c.marks, b.marks), b.next, c.bodies + b.bodies)
    ensures Stray(n, inner.Some?) == (Stray(n.cond, true) || Stray(n.body, true))
  {
    hide WhileMarks;
  }

  lemma InfiniteShape(n: Node, inner: Option<nat>, id: nat)
    requires n.Infinite?
    ensures var b := Shape(n.body, Some(id), id + 1); Shape(n, inner, id) == Shaped(InfiniteMarks(id, b.marks), b.next, b.bodies)
    ensures Stray(n, inner.Some?) == Stray(n.body, true)
  {
    hide InfiniteMarks;
  }

  lemma DoWhileShape(n: Node, inner: Option<nat>, id: nat)
    requires n.DoWhile?
    ensures var b := Shape(n.body, Some(id), id + 1);
      var c := Shape(n.cond, Some(id), b.next);
      Shape(n, inner, id) == Shaped(DoWhileMarks(id, b.marks, c.marks), c.next, b.bodies + c.bodies)
    ensures Stray(n, inner.Some?) == (Stray(n.body, true) || Stray(n.cond, true))
  {
    hide DoWhileMarks;
  }

  lemma CForShape(n: Node, inner: Option<nat>, id: nat)
    requires n.CFor?
    ensures var i := Shape(n.init, inner, id + 1);
      var c := Shape(n.cond, Some(id), i.next);
      var b := Shape(n.body, Some(id), c.next);
      var u := Shape(n.update, Some(id), b.next);
      Shape(n, inner, id) == Shaped(CForMarks(id, i.marks, c.marks, b.marks, u.marks), u.next, i.bodies + c.bodies + b.bodies + u.bodies)
    ensures Stray(n, inner.Some?) == (Stray(n.init, inner.Some?) || Stray(n.cond, true) || Stray(n.update, true) || Stray(n.body, true))
  {
    hide CForMarks;
  }

  lemma ForShape(n: Node, inner: Option<nat>, id: nat)
    requires n.For?
    ensures var i := Shape(n.iter, inner, id + 1);
      var b := Shape(n.body, Some(id), i.next);
      Shape(n, inner, id) == Shaped(ForMarks(id, n.bind, i.marks, b.marks), b.next, i.bodies + b.bodies)
    ensures Stray(n, inner.Some?) == (Stray(n.iter, inner.Some?) || Stray(n.body, true))
  {
    hide ForMarks;
  }

  lemma ComprehensionShape(n: Node, inner: Option<nat>, id: nat)
    requires n.Comprehension?
    ensures var i := Shape(n.iter, inner, id + 2);
      var f := ShapeOption(n.filter, inner, i.next, [], SkipMarks(id));
      var e := Shape(n.element, inner, f.next);
      Shape(n, inner, id) == Shaped(ComprehensionMarks(id, n.bind, i.marks, f.marks, e.marks), e.next, i.bodies + f.bodies + e.bodies)
    ensures Stray(n, inner.Some?) == (Stray(n.iter, inner.Some?) || StrayOption(n.filter, inner.Some?) || Stray(n.element, inner.Some?))
  {
    hide ComprehensionMarks, SkipMarks;
  }

  lemma TryShape(n: Node, inner: Option<nat>, id: nat)
    requires n.Try?
    ensures var b := Shape(n.body, inner, id + 1);
      var h := Shape(n.handler, inner, b.next);
      var f := ShapeOption(n.always, inner, h.next, [], Ops(1));
      Shape(n, inner, id) == Shaped(TryMarks(id, if n.binds then 2 else 0, b.marks, h.marks, f.marks), f.next, b.bodies + h.bodies + f.bodies)
    ensures Stray(n, inner.Some?) == (Stray(n.body, inner.Some?) || Stray(n.handler, inner.Some?) || StrayOption(n.always, inner.Some?))
  {
    hide TryMarks;
  }

  lemma MatchShape(n: Node, inner: Option<nat>, id: nat)
    requires n.Match?
    ensures var v := Shape(n.value, inner, id);
      var a := ShapeArms(n.arms, inner, v.next);
      Shape(n, inner, id) == Shaped(v.marks + Ops(3) + a.marks, a.next, v.bodies + a.bodies)
    ensures Stray(n, inner.Some?) == (Stray(n.value, inner.Some?) || StrayArms(n.arms, inner.Some?))
  {
  }

  lemma JumpShape(n: Node, inner: Option<nat>, id: nat)
    ensures n.Break? ==>
      var v := ShapeOption(n.result, inner, id, [], Ops(1));
      && Shape(n, inner, id) == Shaped(v.marks + (if inner.Some? then [Jumps(false, Opener(KBlock, inner.value))] else []), v.next, v.bodies)
      && Stray(n, inner.Some?) == (StrayOption(n.result, inner.Some?) || inner.None?)
    ensures n.Continue? ==>
      && Shape(n, inner, id) == Shaped(if inner.Some? then [Jumps(false, Opener(KLoop, inner.value))] else [], id, [])
      && Stray(n, inner.Some?) == inner.None?
    ensures n.Function? ==> Shape(n, inner, id) == Shaped(Ops(n.ops), id, [n.body] + Shape(n.body, None, 0).bodies) && Stray(n, inner.Some?) == Stray(n.body, false)
  {
  }

  // What an arm that may fail puts after its binding or test.
  function ArmTest(a: Arm, last: bool, inner: Option<nat>, id: nat): seq<Mark> {
    var g := ShapeOption(a.guard, inner, id + 2, [], []);
    var b := Shape(a.body, inner, g.next);
    var default := Ops(if last then 1 else 0);
    var test := [Opens(Opener(KIf, id))];
    if a.catchAll then g.marks + test + b.marks + [Turns] + default
    else if a.guard.None? then test + b.marks + [Turns] + default
    else test + g.marks + [Opens(Opener(KIf, id + 1))] + b.marks + [Turns] + default + [Closes, Turns] + default
  }

  function ArmBodies(a: Arm, inner: Option<nat>, id: nat): seq<Node> {
    var g := ShapeOption(a.guard, inner, id + 2, [], []);
    g.bodies + Shape(a.body, inner, g.next).bodies
  }

  lemma BothShape(a: Arm, last: bool, inner: Option<nat>, id: nat)
    requires !a.catchAll && a.guard.Some?
    ensures var g := Shape(a.guard.value, inner, id + 2);
      var b := Shape(a.body, inner, g.next);
      var default := Ops(if last then 1 else 0);
      && ArmBodies(a, inner, id) == g.bodies + b.bodies
      && ArmTest(a, last, inner, id) == [Opens(Opener(KIf, id))] + g.marks + [Opens(Opener(KIf, id + 1))] + b.marks + [Turns] + default + [Closes, Turns] + default
    ensures StrayArm(a, inner.Some?) == (Stray(a.guard.value, inner.Some?) || Stray(a.body, inner.Some?))
  {
    var g := Shape(a.guard.value, inner, id + 2);
    assert ShapeOption(a.guard, inner, id + 2, [], []) == Shaped(g.marks + [], g.next, g.bodies);
    assert g.marks + [] == g.marks;
  }

  lemma ArmShape(a: Arm, last: bool, inner: Option<nat>, id: nat)
    ensures ShapeArm(a, last, inner, id).marks ==
      Ops(a.ops) + if CatchesAll(a) then Shape(a.body, inner, id + 2).marks else ArmTest(a, last, inner, id)
    ensures ShapeArm(a, last, inner, id).bodies == ArmBodies(a, inner, id)
    ensures a.guard.None? ==> ArmBodies(a, inner, id) == Shape(a.body, inner, id + 2).bodies
  {
    hide Shape, Ops;
  }

  function Ends(n: nat): seq<Mark> {
    if n == 0 then [] else Ends(n - 1) + [Closes]
  }

  lemma {:induction false} EndsFirst(n: nat)
    ensures Ends(n + 1) == [Closes] + Ends(n)
  {
    if n > 0 { EndsFirst(n - 1); }
  }

  // With i arms compiled, the rest of the arms and the counted ends are still to come.
  ghost predicate ArmsLeft(arms: seq<Arm>, inner: Option<nat>, id: nat, i: nat, next: nat, done: seq<Mark>, found: seq<Node>,
                           ifCount: nat, ended: bool) {
    var all := ShapeArms(arms, inner, id);
    i <= |arms| &&
    if ended then all.marks == done + Ends(ifCount) && all.bodies == found
    else
      var rest := ShapeArms(arms[i..], inner, next);
      all.marks == done + (rest.marks + Ends(ifCount)) && all.bodies == found + rest.bodies
  }

  lemma ArmsStart(arms: seq<Arm>, inner: Option<nat>, id: nat)
    ensures ArmsLeft(arms, inner, id, 0, id, [], [], 0, false)
    ensures arms[0..] == arms
  {
    hide ShapeArms;
    assert arms[0..] == arms;
    var all := ShapeArms(arms, inner, id);
    assert [] + (all.marks + []) == all.marks && [] + all.bodies == all.bodies;
  }

  lemma ArmStep(arms: seq<Arm>, inner: Option<nat>, id: nat, i: nat, next: nat, done: seq<Mark>, found: seq<Node>, ifCount: nat)
    requires i < |arms| && ArmsLeft(arms, inner, id, i, next, done, found, ifCount, false)
    ensures var one := ShapeArm(arms[i], i == |arms| - 1, inner, next);
      if CatchesAll(arms[i]) then ArmsLeft(arms, inner, id, i, one.next, done + one.marks, found + one.bodies, ifCount, true)
      else ArmsLeft(arms, inner, id, i + 1, one.next, done + one.marks, found + one.bodies, ifCount + 1, false)
    ensures var b := inner.Some?;
      StrayArms(arms[i..], b) == (StrayArm(arms[i], b) || (!CatchesAll(arms[i]) && StrayArms(arms[i + 1..], b)))
  {
    hide ShapeArm, StrayArm, CatchesAll, Shape;
    var rest := arms[i..];
    assert rest[0] == arms[i] && rest[1..] == arms[i + 1..];
    var one := ShapeArm(arms[i], i == |arms| - 1, inner, next);
    var more := ShapeArms(arms[i + 1..], inner, one.next);
    EndsFirst(ifCount);
    StepJoin(done, one.marks, more.marks, Ends(ifCount));
    assert found + (one.bodies + more.bodies) == found + one.bodies + more.bodies;
    assert (done + one.marks) + Ends(ifCount) == done + (one.marks + Ends(ifCount));
  }

  lemma StepJoin(done: seq<Mark>, one: seq<Mark>, more: seq<Mark>, ends: seq<Mark>)
    ensures done + (one + more + [Closes] + ends) == done + one + (more + ([Closes] + ends))
  {
  }

  lemma ArmsDone(arms: seq<Arm>, inner: Option<nat>, id: nat, i: nat, next: nat, done: seq<Mark>, found: seq<Node>, ifCount: nat, ended: bool)
    requires ArmsLeft(arms, inner, id, i, next, done, found, ifCount, ended) && (i == |arms| || ended)
    ensures ShapeArms(arms, inner, id).marks == done + Ends(ifCount) && ShapeArms(arms, inner, id).bodies == found
    ensures i == |arms| ==> !StrayArms(arms[i..], inner.Some?)
  {
    if !ended {
      assert arms[i..] == [];
      assert ShapeArms(arms[i..], inner, next) == Shaped([], next, []);
      assert [] + Ends(ifCount) == Ends(ifCount) && found + [] == found;
    }
  }

  // A placeholder waits for its code.
  lemma PlaceholderRead(functions: seq<seq<Ins>>, bodies: seq<Node>, pending: set<nat>, body: Node)
    requires AllRead(functions, bodies, pending)
    ensures |functions| == |bodies| && AllRead(functions + [[]], bodies + [body], pending + {|functions|})
  {
    hide Realizes;
  }

  lemma FunctionRead(functions: seq<seq<Ins>>, bodies: seq<Node>, pending: set<nat>, waiting: set<nat>, idx: nat, code: seq<Ins>, body: Node)
    requires AllRead(functions, bodies, pending) && idx < |bodies| && bodies[idx] == body && pending == waiting + {idx}
    requires Read(code, Shape(body, None, 0).marks) == Some([])
    ensures |functions| == |bodies| && AllRead(functions[idx := code], bodies, waiting)
  {
    assert Realizes(code, body);
    hide Realizes;
  }

  // ---------------------------------------------------------------- putting the marks together

  lemma BranchJoin(before: seq<Mark>, id: nat, c: seq<Mark>, t: seq<Mark>, f: seq<Mark>)
    ensures before + c + [Opens(Opener(KIf, id))] + t + [Turns] + f + [Closes] == before + BranchMarks(id, c, t, f)
  {
  }

  lemma LogicJoin(before: seq<Mark>, id: nat, isAnd: bool, l: seq<Mark>, r: seq<Mark>)
    ensures before + l + Ops(1) + [Opens(Opener(KBlock, id))] + [Opens(Opener(KBlock, id + 1))] + LogicTest(isAnd) + [Leaves(id + 1)] + r + Ops(1)
            + [Closes] + [Closes] + Ops(1) == before + LogicMarks(id, isAnd, l, r)
  {
    hide Ops, Leaves, LogicTest;
  }

  lemma CoalesceJoin(before: seq<Mark>, id: nat, l: seq<Mark>, r: seq<Mark>)
    ensures before + l + Ops(5) + [Opens(Opener(KIf, id))] + r + [Turns] + Ops(1) + [Closes] == before + CoalesceMarks(id, l, r)
  {
    hide Ops;
  }

  lemma WhileJoin(before: seq<Mark>, id: nat, c: seq<Mark>, b: seq<Mark>)
    ensures before + LoopHead(id) + c + NOT + [Leaves(id)] + b + LoopTail(id) == before + WhileMarks(id, c, b)
  {
    hide Ops, LoopHead, LoopTail, Leaves;
  }

  lemma InfiniteJoin(before: seq<Mark>, id: nat, b: seq<Mark>)
    ensures before + LoopHead(id) + b + Ops(1) + LoopTail(id) + Ops(1) == before + InfiniteMarks(id, b)
  {
    hide Ops, LoopHead, LoopTail;
  }

  lemma DoWhileJoin(before: seq<Mark>, id: nat, b: seq<Mark>, c: seq<Mark>)
    ensures before + LoopHead(id) + b + c + NOT + [Leaves(id)] + LoopTail(id) == before + DoWhileMarks(id, b, c)
  {
    hide Ops, LoopHead, LoopTail, Leaves;
  }

  lemma CForJoin(before: seq<Mark>, id: nat, i: seq<Mark>, c: seq<Mark>, b: seq<Mark>, u: seq<Mark>)
    ensures before + i + LoopHead(id) + c + NOT + [Leaves(id)] + b + u + LoopTail(id) == before + CForMarks(id, i, c, b, u)
  {
    hide Ops, LoopHead, LoopTail, Leaves;
  }

  lemma ForJoin(before: seq<Mark>, id: nat, bind: nat, i: seq<Mark>, b: seq<Mark>)
    ensures before + i + Ops(6) + LoopHead(id) + Ops(3) + [Leaves(id)] + Ops(3 + bind) + b + (Ops(3) + STEP) + LoopTail(id)
         == before + ForMarks(id, bind, i, b)
  {
    hide Ops, LoopHead, LoopTail, Leaves;
  }

  lemma SourceJoin(before: seq<Mark>, id: nat, bind: nat, i: seq<Mark>)
    ensures before + Ops(2) + i + Ops(8) + (LoopHead(id) + Ops(3) + [Leaves(id)]) + Ops(4 + bind) == before + ComprehensionHead(id, bind, i)
  {
    hide Ops, LoopHead, LoopTail, Leaves;
  }

  lemma ComprehensionJoin(before: seq<Mark>, id: nat, head: seq<Mark>, f: seq<Mark>, e: seq<Mark>)
    ensures before + head + f + Ops(1) + e + (Ops(6) + STEP) + LoopTail(id) + Ops(1) == before + (head + f + Ops(1) + e + (Ops(6) + STEP) + LoopTail(id) + Ops(1))
  {
    hide Ops, LoopTail;
  }

  lemma TryJoin(before: seq<Mark>, id: nat, binds: nat, b: seq<Mark>, h: seq<Mark>, f: seq<Mark>)
    ensures before + b + Ops(1) + [Works(False)] + [Opens(Opener(KIf, id))] + Ops(binds) + h + Ops(1) + [Closes] + f == before + TryMarks(id, binds, b, h, f)
  {
    hide Ops;
  }

  lemma MatchJoin(before: seq<Mark>, v: seq<Mark>, a: seq<Mark>)
    ensures before + v + Ops(3) + a == before + (v + Ops(3) + a)
  {
    hide Ops;
  }

  lemma MoreMarks(a: seq<Mark>, b: seq<Mark>, c: seq<Mark>)
    ensures a + b + c == a + (b + c)
  {
  }

  lemma MoreBodies(a: seq<Node>, b: seq<Node>, c: seq<Node>)
    ensures a + b + c == a + (b + c)
  {
  }

  // With the first `i` nodes compiled, what they added goes on to the shape of all.
  ghost predicate AllTo(nodes: seq<Node>, inner: Option<nat>, id: nat, i: nat, next: nat, done: seq<Mark>, found: seq<Node>)
    requires i <= |nodes|
  {
    var rest := ShapeAll(nodes[i..], inner, next);
    && ShapeAll(nodes, inner, id) == Shaped(done + rest.marks, rest.next, found + rest.bodies)
    && (StrayAny(nodes, inner.Some?) <==> StrayAny(nodes[i..], inner.Some?))
  }

  lemma AllFirst(nodes: seq<Node>, inner: Option<nat>, id: nat)
    ensures AllTo(nodes, inner, id, 0, id, [], [])
  {
    hide ShapeAll;
    assert nodes[0..] == nodes;
  }

  lemma AllNext(nodes: seq<Node>, inner: Option<nat>, id: nat, i: nat, next: nat, done: seq<Mark>, found: seq<Node>)
    requires i < |nodes| && AllTo(nodes, inner, id, i, next, done, found)
    ensures var one := Shape(nodes[i], inner, next);
      !Stray(nodes[i], inner.Some?) ==> AllTo(nodes, inner, id, i + 1, one.next, done + one.marks, found + one.bodies)
    ensures Stray(nodes[i], inner.Some?) ==> StrayAny(nodes, inner.Some?)
  {
    hide Shape, Stray;
    assert nodes[i..][0] == nodes[i] && nodes[i..][1..] == nodes[i + 1..];
    var one := Shape(nodes[i], inner, next);
    var rest := ShapeAll(nodes[i + 1..], inner, one.next);
    MoreMarks(done, one.marks, rest.marks);
    MoreBodies(found, one.bodies, rest.bodies);
  }

  lemma AllLast(nodes: seq<Node>, inner: Option<nat>, id: nat, i: nat, next: nat, done: seq<Mark>, found: seq<Node>)
    requires i == |nodes| && AllTo(nodes, inner, id, i, next, done, found)
    ensures !StrayAny(nodes, inner.Some?)
    ensures var s := ShapeAll(nodes, inner, id); s.marks == done && s.next == next && s.bodies == found
  {
    assert nodes[i..] == [];
  }

  lemma BothJoin(before: seq<Mark>, id: nat, g: seq<Mark>, b: seq<Mark>, default: seq<Mark>)
    ensures before + [Opens(Opener(KIf, id))] + g + [Opens(Opener(KIf, id + 1))] + b + ([Turns] + default + [Closes, Turns] + default)
         == before + ([Opens(Opener(KIf, id))] + g + [Opens(Opener(KIf, id + 1))] + b + [Turns] + default + [Closes, Turns] + default)
  {
  }
}
