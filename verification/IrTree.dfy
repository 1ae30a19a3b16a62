// The marks of a shape as a tree of nested constructs, and the run of such a tree: a branch leaves everything up to the
// construct it names.
module IrTree {
  import opened Wrappers
  import opened IrShape
  import opened IrLabels

  // What can be left, and what can be chosen in.
  type Goal = o: Opener | o.kind.KBlock? || o.kind.KLoop? witness Opener(KBlock, 0)
  type Tested = o: Opener | o.kind.KIf? witness Opener(KIf, 0)

  datatype Tree =
    | Step(work: Work)
    | Exit(conditional: bool, target: Goal)
    | Inside(opener: Goal, body: seq<Tree>)
    | Choice(test: Tested, thn: seq<Tree>, turns: bool, els: seq<Tree>)

  // ---- trees as marks ----

  function Flat(ts: seq<Tree>): seq<Mark>
    decreases ts, 0
  {
    if ts == [] then [] else FlatOne(ts[0]) + Flat(ts[1..])
  }

  function FlatOne(t: Tree): (r: seq<Mark>)
    ensures r != []
    decreases t, 1
  {
    match t
    case Step(w) => [Works(w)]
    case Exit(conditional, target) => [Jumps(conditional, target)]
    case Inside(o, body) => [Opens(o)] + Flat(body) + [Closes]
    case Choice(o, thn, turns, els) => [Opens(o)] + Flat(thn) + (if turns then [Turns] + Flat(els) else []) + [Closes]
  }

  lemma {:induction false} FlatJoin(a: seq<Tree>, b: seq<Tree>)
    ensures Flat(a + b) == Flat(a) + Flat(b)
  {
    hide FlatOne;
    if a == [] {
      assert a + b == b;
    } else {
      assert (a + b)[0] == a[0] && (a + b)[1..] == a[1..] + b;
      FlatJoin(a[1..], b);
      assert FlatOne(a[0]) + (Flat(a[1..]) + Flat(b)) == FlatOne(a[0]) + Flat(a[1..]) + Flat(b);
    }
  }

  lemma FlatSingle(t: Tree)
    ensures Flat([t]) == FlatOne(t)
  {
    hide FlatOne;
    assert [t][1..] == [];
  }

  function Steps(n: nat): seq<Tree> {
    if n == 0 then [] else Steps(n - 1) + [Step(Quiet)]
  }

  function ActSteps(acts: seq<nat>): seq<Tree> {
    if acts == [] then [] else ActSteps(acts[..|acts| - 1]) + [Step(Act(acts[|acts| - 1]))]
  }

  lemma {:induction false} FlatSteps(n: nat)
    ensures Flat(Steps(n)) == Ops(n)
  {
    hide Flat;
    if n > 0 {
      FlatSteps(n - 1);
      FlatJoin(Steps(n - 1), [Step(Quiet)]);
      FlatSingle(Step(Quiet));
    } else {
      FlatNone();
    }
  }

  lemma FlatNone()
    ensures Flat([]) == []
  {
  }

  lemma {:induction false} FlatActs(acts: seq<nat>)
    ensures Flat(ActSteps(acts)) == Acts(acts)
  {
    hide Flat;
    if acts == [] {
      FlatNone();
    } else {
      var n := |acts| - 1;
      FlatActs(acts[..n]);
      FlatJoin(ActSteps(acts[..n]), [Step(Act(acts[n]))]);
      FlatSingle(Step(Act(acts[n])));
    }
  }

  // ---- the tree of a program ----

  const UNLESS := [Step(Negate)]

  function Count(n: nat): seq<Tree> {
    Steps(n) + [Step(Advance)]
  }

  function Rounds(id: nat, body: seq<Tree>): seq<Tree> {
    [Inside(Opener(KBlock, id), [Inside(Opener(KLoop, id), body + [Exit(false, Opener(KLoop, id))])])]
  }

  function Leave(id: nat): seq<Tree> {
    [Exit(true, Opener(KBlock, id))]
  }

  function SkipTree(id: nat): seq<Tree> {
    UNLESS + [Choice(Opener(KIf, id + 1), Count(4) + [Exit(false, Opener(KLoop, id))], false, [])]
  }

  function Grow(n: Node, inner: Option<nat>, id: nat): seq<Tree>
    decreases n, 1
  {
    match n
    case Plain(acts) => ActSteps(acts)
    case Many(nodes) => GrowAll(nodes, inner, id)
    case Branch(cond, thn, els) =>
      var c, t := Shape(cond, inner, id + 1).next, Shape(thn, inner, Shape(cond, inner, id + 1).next).next;
      Grow(cond, inner, id + 1)
      + [Choice(Opener(KIf, id), Grow(thn, inner, c), true, GrowOption(els, inner, t, Steps(1), []))]
    case Logic(isAnd, left, right) =>
      var l := Shape(left, inner, id + 2).next;
      Grow(left, inner, id + 2) + Steps(1)
      + [Inside(Opener(KBlock, id), [Inside(Opener(KBlock, id + 1),
           (Steps(1) + if isAnd then UNLESS else []) + Leave(id + 1) + Grow(right, inner, l) + Steps(1))])]
      + Steps(1)
    case Coalesce(left, right) =>
      var l := Shape(left, inner, id + 1).next;
      Grow(left, inner, id + 1) + Steps(5) + [Choice(Opener(KIf, id), Grow(right, inner, l), true, Steps(1))]
    case While(cond, body) =>
      var c := Shape(cond, Some(id), id + 1).next;
      Rounds(id, Grow(cond, Some(id), id + 1) + UNLESS + Leave(id) + Grow(body, Some(id), c))
    case Infinite(body) => Rounds(id, Grow(body, Some(id), id + 1) + Steps(1)) + Steps(1)
    case DoWhile(body, cond) =>
      var b := Shape(body, Some(id), id + 1).next;
      Rounds(id, Grow(body, Some(id), id + 1) + Grow(cond, Some(id), b) + UNLESS + Leave(id))
    case CFor(init, cond, update, body) =>
      var i := Shape(init, inner, id + 1).next;
      var c := Shape(cond, Some(id), i).next;
      var b := Shape(body, Some(id), c).next;
      Grow(init, inner, id + 1)
      + Rounds(id, Grow(cond, Some(id), i) + UNLESS + Leave(id) + Grow(body, Some(id), c) + Grow(update, Some(id), b))
    case For(iter, bind, body) =>
      var i := Shape(iter, inner, id + 1).next;
      Grow(iter, inner, id + 1) + Steps(6)
      + Rounds(id, Steps(3) + Leave(id) + Steps(3 + bind) + Grow(body, Some(id), i) + Count(3))
    case Comprehension(iter, bind, filter, element) =>
      var i := Shape(iter, inner, id + 2).next;
      var f := ShapeOption(filter, inner, i, [], SkipMarks(id)).next;
      Steps(2) + Grow(iter, inner, id + 2) + Steps(8)
      + Rounds(id, Steps(3) + Leave(id) + Steps(4 + bind) + GrowOption(filter, inner, i, [], SkipTree(id)) + Steps(1)
                   + Grow(element, inner, f) + Count(6))
      + Steps(1)
    case Match(value, arms) =>
      Grow(value, inner, id) + Steps(3) + GrowArms(arms, inner, Shape(value, inner, id).next)
    case Try(body, binds, handler, always) =>
      var b := Shape(body, inner, id + 1).next;
      var h := Shape(handler, inner, b).next;
      Grow(body, inner, id + 1) + Steps(1) + [Step(False)]
      + [Choice(Opener(KIf, id), Steps(if binds then 2 else 0) + Grow(handler, inner, b) + Steps(1), false, [])]
      + GrowOption(always, inner, h, [], Steps(1))
    case Break(result) =>
      GrowOption(result, inner, id, [], Steps(1))
      + (if inner.Some? then [Exit(false, Opener(KBlock, inner.value))] else [])
    case Continue => if inner.Some? then [Exit(false, Opener(KLoop, inner.value))] else []
    case Function(_, ops) => Steps(ops)
  }

  function GrowOption(n: Option<Node>, inner: Option<nat>, id: nat, absent: seq<Tree>, after: seq<Tree>): seq<Tree>
    decreases n, 2
  {
    match n
    case None => absent
    case Some(x) => Grow(x, inner, id) + after
  }

  function GrowAll(nodes: seq<Node>, inner: Option<nat>, id: nat): seq<Tree>
    decreases nodes, 0
  {
    if nodes == [] then []
    else Grow(nodes[0], inner, id) + GrowAll(nodes[1..], inner, Shape(nodes[0], inner, id).next)
  }

  function Missing(last: bool): seq<Tree> {
    Steps(if last then 1 else 0)
  }

  function GrowArms(arms: seq<Arm>, inner: Option<nat>, id: nat): seq<Tree>
    decreases arms, 0
  {
    if arms == [] then []
    else
      var a := arms[0];
      var last := |arms| == 1;
      var next := ShapeArm(a, last, inner, id).next;
      if CatchesAll(a) then Steps(a.ops) + GrowBody(a, inner, id)
      else GrowArm(a, last, inner, id, Missing(last) + GrowArms(arms[1..], inner, next))
  }

  function GrowBody(a: Arm, inner: Option<nat>, id: nat): seq<Tree>
    decreases a, 3
  {
    Grow(a.body, inner, ShapeOption(a.guard, inner, id + 2, [], []).next)
  }

  function GrowGuard(a: Arm, inner: Option<nat>, id: nat): seq<Tree>
    decreases a, 3
  {
    GrowOption(a.guard, inner, id + 2, [], [])
  }

  // An arm that may fail; `rest` is what stands in its else part.
  function GrowArm(a: Arm, last: bool, inner: Option<nat>, id: nat, rest: seq<Tree>): seq<Tree>
    decreases a, 4
  {
    Steps(a.ops) +
    if a.catchAll then GrowGuard(a, inner, id) + [Choice(Opener(KIf, id), GrowBody(a, inner, id), true, rest)]
    else if a.guard.None? then [Choice(Opener(KIf, id), GrowBody(a, inner, id), true, rest)]
    else [Choice(Opener(KIf, id),
                 GrowGuard(a, inner, id) + [Choice(Opener(KIf, id + 1), GrowBody(a, inner, id), true, Missing(last))],
                 true, rest)]
  }

  // ---- the marks of the tree are those of the shape ----

  lemma Flat3(a: seq<Tree>, b: seq<Tree>, c: seq<Tree>)
    ensures Flat(a + b + c) == Flat(a) + Flat(b) + Flat(c)
  {
    hide Flat;
    FlatJoin(a + b, c);
    FlatJoin(a, b);
  }

  lemma Flat4(a: seq<Tree>, b: seq<Tree>, c: seq<Tree>, d: seq<Tree>)
    ensures Flat(a + b + c + d) == Flat(a) + Flat(b) + Flat(c) + Flat(d)
  {
    hide Flat;
    FlatJoin(a + b + c, d);
    Flat3(a, b, c);
  }

  lemma Flat5(a: seq<Tree>, b: seq<Tree>, c: seq<Tree>, d: seq<Tree>, e: seq<Tree>)
    ensures Flat(a + b + c + d + e) == Flat(a) + Flat(b) + Flat(c) + Flat(d) + Flat(e)
  {
    hide Flat;
    FlatJoin(a + b + c + d, e);
    Flat4(a, b, c, d);
  }

  lemma FlatChoice(o: Tested, thn: seq<Tree>, turns: bool, els: seq<Tree>)
    ensures Flat([Choice(o, thn, turns, els)]) == [Opens(o)] + Flat(thn) + (if turns then [Turns] + Flat(els) else []) + [Closes]
  {
    hide Flat;
    FlatSingle(Choice(o, thn, turns, els));
  }

  lemma FlatInside(o: Goal, body: seq<Tree>)
    ensures Flat([Inside(o, body)]) == [Opens(o)] + Flat(body) + [Closes]
  {
    hide Flat;
    FlatSingle(Inside(o, body));
  }

  lemma FlatExit(conditional: bool, o: Goal)
    ensures Flat([Exit(conditional, o)]) == [Jumps(conditional, o)]
  {
    FlatSingle(Exit(conditional, o));
  }

  lemma FlatSmall(id: nat, n: nat)
    ensures Flat(UNLESS) == NOT && Flat(Leave(id)) == [Leaves(id)] && Flat(Steps(n)) == Ops(n) && Flat(Count(n)) == Ops(n) + STEP
    ensures Flat([Step(False)]) == [Works(False)]
  {
    hide Flat;
    FlatSteps(n);
    FlatSingle(Step(Negate));
    FlatSingle(Step(Advance));
    FlatSingle(Step(False));
    FlatExit(true, Opener(KBlock, id));
    FlatJoin(Steps(n), [Step(Advance)]);
  }

  lemma FlatRounds(id: nat, body: seq<Tree>)
    ensures Flat(Rounds(id, body)) == LoopHead(id) + Flat(body) + LoopTail(id)
  {
    hide Flat;
    var back := [Exit(false, Opener(KLoop, id))];
    var inner := [Inside(Opener(KLoop, id), body + back)];
    FlatInside(Opener(KBlock, id), inner);
    FlatInside(Opener(KLoop, id), body + back);
    FlatJoin(body, back);
    FlatExit(false, Opener(KLoop, id));
  }

  lemma {:induction false} FlatGrow(n: Node, inner: Option<nat>, id: nat)
    ensures Flat(Grow(n, inner, id)) == Shape(n, inner, id).marks
    decreases n, 2
  {
    hide Flat;
    match n
    case Plain(acts) => FlatActs(acts);
    case Many(nodes) => FlatAll(nodes, inner, id);
    case Branch(_, _, _) => FlatBranch(n, inner, id);
    case Logic(_, _, _) => FlatLogic(n, inner, id);
    case Coalesce(_, _) => FlatCoalesce(n, inner, id);
    case While(_, _) => FlatWhile(n, inner, id);
    case Infinite(_) => FlatInfinite(n, inner, id);
    case DoWhile(_, _) => FlatDoWhile(n, inner, id);
    case CFor(_, _, _, _) => FlatCFor(n, inner, id);
    case For(_, _, _) => FlatFor(n, inner, id);
    case Comprehension(_, _, _, _) => FlatComprehension(n, inner, id);
    case Match(_, _) => FlatMatch(n, inner, id);
    case Try(_, _, _, _) => FlatTry(n, inner, id);
    case Break(result) =>
      FlatNone();
      FlatSteps(1);
      FlatOption(result, inner, id, [], Steps(1), [], Ops(1));
      FlatJump(GrowOption(result, inner, id, [], Steps(1)), inner);
    case Continue =>
      if inner.Some? { FlatExit(false, Opener(KLoop, inner.value)); } else { FlatNone(); }
    case Function(_, ops) => FlatSteps(ops);
  }

  lemma FlatJump(ts: seq<Tree>, inner: Option<nat>)
    ensures Flat(ts + (if inner.Some? then [Exit(false, Opener(KBlock, inner.value))] else []))
         == Flat(ts) + (if inner.Some? then [Jumps(false, Opener(KBlock, inner.value))] else [])
  {
    hide Flat;
    if inner.Some? {
      FlatJoin(ts, [Exit(false, Opener(KBlock, inner.value))]);
      FlatExit(false, Opener(KBlock, inner.value));
    } else {
      assert ts + [] == ts && Flat(ts) + [] == Flat(ts);
    }
  }

  lemma {:induction false} FlatOption(n: Option<Node>, inner: Option<nat>, id: nat, absent: seq<Tree>, after: seq<Tree>, no: seq<Mark>, yes: seq<Mark>)
    requires Flat(absent) == no && Flat(after) == yes
    ensures Flat(GrowOption(n, inner, id, absent, after)) == ShapeOption(n, inner, id, no, yes).marks
    decreases n, 3
  {
    hide Flat;
    if n.Some? {
      FlatGrow(n.value, inner, id);
      FlatJoin(Grow(n.value, inner, id), after);
    }
  }

  lemma {:induction false} FlatAll(nodes: seq<Node>, inner: Option<nat>, id: nat)
    ensures Flat(GrowAll(nodes, inner, id)) == ShapeAll(nodes, inner, id).marks
    decreases nodes, 0
  {
    hide Flat, Grow, Shape;
    if nodes == [] {
      FlatNone();
    } else {
      FlatGrow(nodes[0], inner, id);
      var next := Shape(nodes[0], inner, id).next;
      FlatAll(nodes[1..], inner, next);
      FlatJoin(Grow(nodes[0], inner, id), GrowAll(nodes[1..], inner, next));
    }
  }

  lemma BranchGrow(n: Node, inner: Option<nat>, id: nat)
    requires n.Branch?
    ensures var c := Shape(n.cond, inner, id + 1).next;
      var t := Shape(n.thn, inner, c).next;
      Grow(n, inner, id) == Grow(n.cond, inner, id + 1)
        + [Choice(Opener(KIf, id), Grow(n.thn, inner, c), true, GrowOption(n.els, inner, t, Steps(1), []))]
  {
    hide Steps;
  }

  lemma BranchFlat(id: nat, c: seq<Mark>, t: seq<Mark>, f: seq<Mark>)
    ensures c + ([Opens(Opener(KIf, id))] + t + ([Turns] + f) + [Closes]) == BranchMarks(id, c, t, f)
  {
  }

  lemma {:induction false} FlatBranch(n: Node, inner: Option<nat>, id: nat)
    requires n.Branch?
    ensures Flat(Grow(n, inner, id)) == Shape(n, inner, id).marks
    decreases n, 1
  {
    hide Flat, Ops, Steps, Shape, ShapeOption, Grow, GrowOption, BranchMarks;
    BranchGrow(n, inner, id);
    BranchShape(n, inner, id);
    var c := Shape(n.cond, inner, id + 1).next;
    var t := Shape(n.thn, inner, c).next;
    FlatGrow(n.cond, inner, id + 1);
    FlatGrow(n.thn, inner, c);
    FlatSteps(1);
    FlatNone();
    FlatOption(n.els, inner, t, Steps(1), [], Ops(1), []);
    var els := GrowOption(n.els, inner, t, Steps(1), []);
    FlatChoice(Opener(KIf, id), Grow(n.thn, inner, c), true, els);
    FlatJoin(Grow(n.cond, inner, id + 1), [Choice(Opener(KIf, id), Grow(n.thn, inner, c), true, els)]);
    BranchFlat(id, Shape(n.cond, inner, id + 1).marks, Shape(n.thn, inner, c).marks, ShapeOption(n.els, inner, t, Ops(1), []).marks);
  }

  lemma {:induction false} FlatLogic(n: Node, inner: Option<nat>, id: nat)
    requires n.Logic?
    ensures Flat(Grow(n, inner, id)) == Shape(n, inner, id).marks
    decreases n, 1
  {
    hide Flat, Ops, Steps;
    var l := Shape(n.left, inner, id + 2).next;
    FlatGrow(n.left, inner, id + 2);
    FlatGrow(n.right, inner, l);
    FlatSmall(id + 1, 1);
    var not := if n.isAnd then UNLESS else [];
    FlatNone();
    FlatJoin(Steps(1), not);
    var test := Steps(1) + not;
    assert Flat(test) == LogicTest(n.isAnd);
    Flat4(test, Leave(id + 1), Grow(n.right, inner, l), Steps(1));
    var body := test + Leave(id + 1) + Grow(n.right, inner, l) + Steps(1);
    FlatInside(Opener(KBlock, id + 1), body);
    FlatInside(Opener(KBlock, id), [Inside(Opener(KBlock, id + 1), body)]);
    Flat4(Grow(n.left, inner, id + 2), Steps(1), [Inside(Opener(KBlock, id), [Inside(Opener(KBlock, id + 1), body)])], Steps(1));
    LogicFlat(id, Flat(Grow(n.left, inner, id + 2)), Flat(Grow(n.right, inner, l)), LogicTest(n.isAnd), Ops(1));
  }

  lemma LogicFlat(id: nat, l: seq<Mark>, r: seq<Mark>, test: seq<Mark>, ops: seq<Mark>)
    ensures l + ops + ([Opens(Opener(KBlock, id))] + ([Opens(Opener(KBlock, id + 1))] + (test + [Leaves(id + 1)] + r + ops) + [Closes]) + [Closes]) + ops
      == l + ops + [Opens(Opener(KBlock, id)), Opens(Opener(KBlock, id + 1))] + test + [Leaves(id + 1)] + r + ops + [Closes, Closes] + ops
  {
  }

  lemma {:induction false} FlatCoalesce(n: Node, inner: Option<nat>, id: nat)
    requires n.Coalesce?
    ensures Flat(Grow(n, inner, id)) == Shape(n, inner, id).marks
    decreases n, 1
  {
    hide Flat, Ops, Steps;
    var l := Shape(n.left, inner, id + 1).next;
    FlatGrow(n.left, inner, id + 1);
    FlatGrow(n.right, inner, l);
    FlatSteps(1);
    FlatSteps(5);
    FlatChoice(Opener(KIf, id), Grow(n.right, inner, l), true, Steps(1));
    Flat3(Grow(n.left, inner, id + 1), Steps(5), [Choice(Opener(KIf, id), Grow(n.right, inner, l), true, Steps(1))]);
  }

  lemma {:induction false} FlatWhile(n: Node, inner: Option<nat>, id: nat)
    requires n.While?
    ensures Flat(Grow(n, inner, id)) == Shape(n, inner, id).marks
    decreases n, 1
  {
    hide Flat, Ops, LoopHead, LoopTail, Leaves;
    var c := Shape(n.cond, Some(id), id + 1).next;
    FlatGrow(n.cond, Some(id), id + 1);
    FlatGrow(n.body, Some(id), c);
    FlatSmall(id, 0);
    Flat4(Grow(n.cond, Some(id), id + 1), UNLESS, Leave(id), Grow(n.body, Some(id), c));
    FlatRounds(id, Grow(n.cond, Some(id), id + 1) + UNLESS + Leave(id) + Grow(n.body, Some(id), c));
  }

  lemma {:induction false} FlatInfinite(n: Node, inner: Option<nat>, id: nat)
    requires n.Infinite?
    ensures Flat(Grow(n, inner, id)) == Shape(n, inner, id).marks
    decreases n, 1
  {
    hide Flat, Ops, Steps, LoopHead, LoopTail;
    FlatGrow(n.body, Some(id), id + 1);
    FlatSteps(1);
    FlatJoin(Grow(n.body, Some(id), id + 1), Steps(1));
    FlatRounds(id, Grow(n.body, Some(id), id + 1) + Steps(1));
    FlatJoin(Rounds(id, Grow(n.body, Some(id), id + 1) + Steps(1)), Steps(1));
  }

  lemma {:induction false} FlatDoWhile(n: Node, inner: Option<nat>, id: nat)
    requires n.DoWhile?
    ensures Flat(Grow(n, inner, id)) == Shape(n, inner, id).marks
    decreases n, 1
  {
    hide Flat, Ops, LoopHead, LoopTail, Leaves;
    var b := Shape(n.body, Some(id), id + 1).next;
    FlatGrow(n.body, Some(id), id + 1);
    FlatGrow(n.cond, Some(id), b);
    FlatSmall(id, 0);
    Flat4(Grow(n.body, Some(id), id + 1), Grow(n.cond, Some(id), b), UNLESS, Leave(id));
    FlatRounds(id, Grow(n.body, Some(id), id + 1) + Grow(n.cond, Some(id), b) + UNLESS + Leave(id));
  }

  lemma {:induction false} FlatCFor(n: Node, inner: Option<nat>, id: nat)
    requires n.CFor?
    ensures Flat(Grow(n, inner, id)) == Shape(n, inner, id).marks
    decreases n, 1
  {
    hide Flat, Ops, LoopHead, LoopTail, Leaves;
    var i := Shape(n.init, inner, id + 1).next;
    var c := Shape(n.cond, Some(id), i).next;
    var b := Shape(n.body, Some(id), c).next;
    FlatGrow(n.init, inner, id + 1);
    FlatGrow(n.cond, Some(id), i);
    FlatGrow(n.body, Some(id), c);
    FlatGrow(n.update, Some(id), b);
    FlatSmall(id, 0);
    var body := Grow(n.cond, Some(id), i) + UNLESS + Leave(id) + Grow(n.body, Some(id), c) + Grow(n.update, Some(id), b);
    Flat5(Grow(n.cond, Some(id), i), UNLESS, Leave(id), Grow(n.body, Some(id), c), Grow(n.update, Some(id), b));
    FlatRounds(id, body);
    FlatJoin(Grow(n.init, inner, id + 1), Rounds(id, body));
  }

  lemma {:induction false} FlatFor(n: Node, inner: Option<nat>, id: nat)
    requires n.For?
    ensures Flat(Grow(n, inner, id)) == Shape(n, inner, id).marks
    decreases n, 1
  {
    hide Flat, Ops, Steps, LoopHead, LoopTail, Leaves, Count;
    var i := Shape(n.iter, inner, id + 1).next;
    FlatGrow(n.iter, inner, id + 1);
    FlatGrow(n.body, Some(id), i);
    FlatSteps(6);
    FlatSmall(id, 3);
    FlatSteps(3 + n.bind);
    var body := Steps(3) + Leave(id) + Steps(3 + n.bind) + Grow(n.body, Some(id), i) + Count(3);
    Flat5(Steps(3), Leave(id), Steps(3 + n.bind), Grow(n.body, Some(id), i), Count(3));
    FlatRounds(id, body);
    Flat3(Grow(n.iter, inner, id + 1), Steps(6), Rounds(id, body));
  }

  lemma FlatSkip(id: nat)
    ensures Flat(SkipTree(id)) == SkipMarks(id)
  {
    hide Flat, Ops, Steps, Count;
    FlatSmall(id, 4);
    FlatExit(false, Opener(KLoop, id));
    var skip := Count(4) + [Exit(false, Opener(KLoop, id))];
    FlatJoin(Count(4), [Exit(false, Opener(KLoop, id))]);
    FlatChoice(Opener(KIf, id + 1), skip, false, []);
    FlatJoin(UNLESS, [Choice(Opener(KIf, id + 1), skip, false, [])]);
  }

  lemma ComprehensionGrow(n: Node, inner: Option<nat>, id: nat)
    requires n.Comprehension?
    ensures var i := Shape(n.iter, inner, id + 2).next;
      var f := ShapeOption(n.filter, inner, i, [], SkipMarks(id)).next;
      Grow(n, inner, id) == Steps(2) + Grow(n.iter, inner, id + 2) + Steps(8)
        + Rounds(id, Steps(3) + Leave(id) + Steps(4 + n.bind) + GrowOption(n.filter, inner, i, [], SkipTree(id)) + Steps(1)
                     + Grow(n.element, inner, f) + Count(6))
        + Steps(1)
  {
    hide Steps, Rounds, SkipMarks, SkipTree;
  }

  lemma ComprehensionFlat(id: nat, bind: nat, i: seq<Mark>, f: seq<Mark>, e: seq<Mark>)
    ensures Ops(2) + i + Ops(8)
            + (LoopHead(id) + (Ops(3) + [Leaves(id)] + Ops(4 + bind) + f + Ops(1) + e + (Ops(6) + STEP)) + LoopTail(id)) + Ops(1)
         == ComprehensionMarks(id, bind, i, f, e)
  {
    hide Ops, LoopHead, LoopTail, Leaves;
  }

  lemma {:induction false} FlatComprehension(n: Node, inner: Option<nat>, id: nat)
    requires n.Comprehension?
    ensures Flat(Grow(n, inner, id)) == Shape(n, inner, id).marks
    decreases n, 1
  {
    hide Flat, Ops, Steps, LoopHead, LoopTail, Leaves, Count, SkipMarks, SkipTree, Rounds, Shape, ShapeOption, Grow, GrowOption, ComprehensionMarks;
    ComprehensionGrow(n, inner, id);
    ComprehensionShape(n, inner, id);
    var i := Shape(n.iter, inner, id + 2).next;
    var f := ShapeOption(n.filter, inner, i, [], SkipMarks(id)).next;
    FlatGrow(n.iter, inner, id + 2);
    FlatSkip(id);
    FlatNone();
    FlatOption(n.filter, inner, i, [], SkipTree(id), [], SkipMarks(id));
    FlatGrow(n.element, inner, f);
    FlatSteps(1);
    FlatSteps(2);
    FlatSteps(8);
    FlatSteps(4 + n.bind);
    FlatSmall(id, 3);
    FlatSmall(id, 6);
    var filter := GrowOption(n.filter, inner, i, [], SkipTree(id));
    var head := Steps(3) + Leave(id) + Steps(4 + n.bind) + filter;
    var body := head + Steps(1) + Grow(n.element, inner, f) + Count(6);
    Flat4(Steps(3), Leave(id), Steps(4 + n.bind), filter);
    Flat4(head, Steps(1), Grow(n.element, inner, f), Count(6));
    FlatRounds(id, body);
    Flat5(Steps(2), Grow(n.iter, inner, id + 2), Steps(8), Rounds(id, body), Steps(1));
    ComprehensionFlat(id, n.bind, Shape(n.iter, inner, id + 2).marks, ShapeOption(n.filter, inner, i, [], SkipMarks(id)).marks,
                      Shape(n.element, inner, f).marks);
  }

  lemma {:induction false} FlatMatch(n: Node, inner: Option<nat>, id: nat)
    requires n.Match?
    ensures Flat(Grow(n, inner, id)) == Shape(n, inner, id).marks
    decreases n, 1
  {
    hide Flat, Ops, Steps;
    var v := Shape(n.value, inner, id).next;
    FlatGrow(n.value, inner, id);
    FlatArms(n.arms, inner, v);
    FlatSteps(3);
    Flat3(Grow(n.value, inner, id), Steps(3), GrowArms(n.arms, inner, v));
  }

  lemma TryGrow(n: Node, inner: Option<nat>, id: nat)
    requires n.Try?
    ensures var b := Shape(n.body, inner, id + 1).next;
      var h := Shape(n.handler, inner, b).next;
      Grow(n, inner, id) == Grow(n.body, inner, id + 1) + Steps(1) + [Step(False)]
        + [Choice(Opener(KIf, id), Steps(if n.binds then 2 else 0) + Grow(n.handler, inner, b) + Steps(1), false, [])]
        + GrowOption(n.always, inner, h, [], Steps(1))
  {
    hide Steps;
  }

  lemma TryFlat(id: nat, binds: nat, b: seq<Mark>, h: seq<Mark>, f: seq<Mark>)
    ensures b + Ops(1) + [Works(False)] + ([Opens(Opener(KIf, id))] + (Ops(binds) + h + Ops(1)) + [] + [Closes]) + f == TryMarks(id, binds, b, h, f)
  {
    hide Ops;
  }

  lemma {:induction false} FlatTry(n: Node, inner: Option<nat>, id: nat)
    requires n.Try?
    ensures Flat(Grow(n, inner, id)) == Shape(n, inner, id).marks
    decreases n, 1
  {
    hide Flat, Ops, Steps, Shape, ShapeOption, Grow, GrowOption, TryMarks;
    TryGrow(n, inner, id);
    TryShape(n, inner, id);
    var b := Shape(n.body, inner, id + 1).next;
    var h := Shape(n.handler, inner, b).next;
    FlatGrow(n.body, inner, id + 1);
    FlatGrow(n.handler, inner, b);
    FlatNone();
    FlatSteps(1);
    FlatOption(n.always, inner, h, [], Steps(1), [], Ops(1));
    FlatSmall(id, 1);
    var binds := if n.binds then 2 else 0;
    FlatSteps(binds);
    var handler := Steps(binds) + Grow(n.handler, inner, b) + Steps(1);
    Flat3(Steps(binds), Grow(n.handler, inner, b), Steps(1));
    FlatChoice(Opener(KIf, id), handler, false, []);
    Flat5(Grow(n.body, inner, id + 1), Steps(1), [Step(False)], [Choice(Opener(KIf, id), handler, false, [])],
          GrowOption(n.always, inner, h, [], Steps(1)));
    TryFlat(id, binds, Shape(n.body, inner, id + 1).marks, Shape(n.handler, inner, b).marks, ShapeOption(n.always, inner, h, [], Ops(1)).marks);
  }

  lemma {:induction false} FlatArms(arms: seq<Arm>, inner: Option<nat>, id: nat)
    ensures Flat(GrowArms(arms, inner, id)) == ShapeArms(arms, inner, id).marks
    decreases arms, 0
  {
    hide Flat, Ops, Steps, Shape, ShapeOption, Grow, GrowOption, GrowArm, GrowBody;
    if arms == [] {
      FlatNone();
    } else {
      var a, last := arms[0], |arms| == 1;
      ArmShape(a, last, inner, id);
      FlatBody(a, inner, id);
      FlatSteps(a.ops);
      if CatchesAll(a) {
        CatchBody(a, inner, id);
        FlatJoin(Steps(a.ops), GrowBody(a, inner, id));
      } else {
        var next := ShapeArm(a, last, inner, id).next;
        FlatArms(arms[1..], inner, next);
        FlatSteps(if last then 1 else 0);
        FlatJoin(Missing(last), GrowArms(arms[1..], inner, next));
        FlatArm(a, last, inner, id, Missing(last) + GrowArms(arms[1..], inner, next), ShapeArms(arms[1..], inner, next).marks);
      }
    }
  }

  lemma CatchBody(a: Arm, inner: Option<nat>, id: nat)
    requires CatchesAll(a)
    ensures ShapeOption(a.guard, inner, id + 2, [], []).next == id + 2
  {
  }

  lemma {:induction false} FlatBody(a: Arm, inner: Option<nat>, id: nat)
    ensures Flat(GrowBody(a, inner, id)) == Shape(a.body, inner, ShapeOption(a.guard, inner, id + 2, [], []).next).marks
    decreases a, 4
  {
    hide Flat;
    FlatGrow(a.body, inner, ShapeOption(a.guard, inner, id + 2, [], []).next);
  }

  lemma {:induction false} FlatGuard(a: Arm, inner: Option<nat>, id: nat)
    ensures Flat(GrowGuard(a, inner, id)) == ShapeOption(a.guard, inner, id + 2, [], []).marks
    decreases a, 5
  {
    hide Flat;
    FlatNone();
    FlatOption(a.guard, inner, id + 2, [], [], [], []);
  }

  lemma {:induction false} FlatArm(a: Arm, last: bool, inner: Option<nat>, id: nat, rest: seq<Tree>, more: seq<Mark>)
    requires !CatchesAll(a) && Flat(rest) == Ops(if last then 1 else 0) + more
    ensures Flat(GrowArm(a, last, inner, id, rest)) == ShapeArm(a, last, inner, id).marks + more + [Closes]
    decreases a, 6
  {
    hide Flat, Ops, Steps, Shape, ShapeOption, ShapeArm, ArmTest, Grow, GrowOption, GrowBody, GrowGuard, GrowArm;
    ArmShape(a, last, inner, id);
    ArmGrow(a, last, inner, id, rest);
    FlatBody(a, inner, id);
    FlatGuard(a, inner, id);
    FlatSteps(a.ops);
    FlatSteps(if last then 1 else 0);
    var b, g := GrowBody(a, inner, id), GrowGuard(a, inner, id);
    var default := Ops(if last then 1 else 0);
    FlatChoice(Opener(KIf, id), b, true, rest);
    ArmFlat(id, Flat(g), Flat(b), default, more, Ops(a.ops));
    ArmTests(a, last, inner, id);
    if a.catchAll {
      var test := [Choice(Opener(KIf, id), b, true, rest)];
      FlatJoin(g, test);
      FlatJoin(Steps(a.ops), g + test);
    } else if a.guard.None? {
      FlatJoin(Steps(a.ops), [Choice(Opener(KIf, id), b, true, rest)]);
    } else {
      FlatChoice(Opener(KIf, id + 1), b, true, Missing(last));
      var both := g + [Choice(Opener(KIf, id + 1), b, true, Missing(last))];
      FlatJoin(g, [Choice(Opener(KIf, id + 1), b, true, Missing(last))]);
      FlatChoice(Opener(KIf, id), both, true, rest);
      FlatJoin(Steps(a.ops), [Choice(Opener(KIf, id), both, true, rest)]);
    }
  }

  lemma ArmGrow(a: Arm, last: bool, inner: Option<nat>, id: nat, rest: seq<Tree>)
    ensures var b, g := GrowBody(a, inner, id), GrowGuard(a, inner, id);
      GrowArm(a, last, inner, id, rest) == Steps(a.ops) +
        if a.catchAll then g + [Choice(Opener(KIf, id), b, true, rest)]
        else if a.guard.None? then [Choice(Opener(KIf, id), b, true, rest)]
        else [Choice(Opener(KIf, id), g + [Choice(Opener(KIf, id + 1), b, true, Missing(last))], true, rest)]
  {
  }

  lemma ArmTests(a: Arm, last: bool, inner: Option<nat>, id: nat)
    ensures var g := ShapeOption(a.guard, inner, id + 2, [], []);
      var b := Shape(a.body, inner, g.next);
      var default := Ops(if last then 1 else 0);
      var test := [Opens(Opener(KIf, id))];
      ArmTest(a, last, inner, id) ==
        if a.catchAll then g.marks + test + b.marks + [Turns] + default
        else if a.guard.None? then test + b.marks + [Turns] + default
        else test + g.marks + [Opens(Opener(KIf, id + 1))] + b.marks + [Turns] + default + [Closes, Turns] + default
  {
    hide Shape, ShapeOption, Ops;
  }

  lemma ArmFlat(id: nat, g: seq<Mark>, b: seq<Mark>, default: seq<Mark>, more: seq<Mark>, ops: seq<Mark>)
    ensures var test := [Opens(Opener(KIf, id))];
      && ops + (g + (test + b + ([Turns] + (default + more)) + [Closes])) == ops + (g + test + b + [Turns] + default) + more + [Closes]
      && ops + (test + b + ([Turns] + (default + more)) + [Closes]) == ops + (test + b + [Turns] + default) + more + [Closes]
      && ops + (test + (g + ([Opens(Opener(KIf, id + 1))] + b + ([Turns] + default) + [Closes])) + ([Turns] + (default + more)) + [Closes])
         == ops + (test + g + [Opens(Opener(KIf, id + 1))] + b + [Turns] + default + [Closes, Turns] + default) + more + [Closes]
  {
  }
}
