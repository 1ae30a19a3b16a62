// The names in a shape are unique, so a branch target names one construct.
module IrNames {
  import opened Wrappers
  import opened IrShape
  import opened IrLabels

  // How often a part opens a construct of this name and kind.
  ghost function Count(marks: seq<Mark>, o: Opener): nat {
    multiset(marks)[Opens(o)]
  }

  ghost predicate Named(s: Shaped, id: nat, o: Opener) {
    && s.next >= id
    && Count(s.marks, o) <= 1
    && (!(id <= o.owner < s.next) ==> Count(s.marks, o) == 0)
  }

  function Is(o: Opener, kind: Kind, id: nat): nat {
    if o == Opener(kind, id) then 1 else 0
  }

  // ---------------------------------------------------------------- what each construct adds

  lemma NoCount(o: Opener)
    ensures Count([], o) == 0
  {
  }

  lemma CountJoin(a: seq<Mark>, b: seq<Mark>, o: Opener)
    ensures Count(a + b, o) == Count(a, o) + Count(b, o)
  {
  }

  lemma {:induction false} OpsCount(n: nat, o: Opener)
    ensures Count(Ops(n), o) == 0
  {
    if n > 0 { OpsCount(n - 1, o); }
  }

  lemma {:induction false} ActsCount(names: seq<nat>, o: Opener)
    ensures Count(Acts(names), o) == 0
  {
    if names != [] { ActsCount(names[..|names| - 1], o); }
  }

  lemma WorkCount(n: nat, o: Opener)
    ensures Count(Ops(n) + STEP, o) == 0 && Count(NOT, o) == 0 && Count(Ops(n) + NOT, o) == 0 && Count(Ops(n) + [Works(False)], o) == 0
  {
    hide Ops;
    OpsCount(n, o);
  }

  lemma TestCount(isAnd: bool, o: Opener)
    ensures Count(LogicTest(isAnd), o) == 0
  {
    hide Ops;
    OpsCount(1, o);
    WorkCount(1, o);
    assert Ops(1) + [] == Ops(1);
  }

  lemma LoopCount(id: nat, o: Opener)
    ensures Count(LoopHead(id), o) == Is(o, KBlock, id) + Is(o, KLoop, id)
    ensures Count(LoopTail(id), o) == 0 && Count([Leaves(id)], o) == 0
  {
  }

  lemma BranchCount(id: nat, c: seq<Mark>, t: seq<Mark>, f: seq<Mark>, o: Opener)
    ensures Count(BranchMarks(id, c, t, f), o) == Count(c, o) + Count(t, o) + Count(f, o) + Is(o, KIf, id)
  {
  }

  lemma LogicCount(id: nat, isAnd: bool, l: seq<Mark>, r: seq<Mark>, o: Opener)
    ensures Count(LogicMarks(id, isAnd, l, r), o) == Count(l, o) + Count(r, o) + Is(o, KBlock, id) + Is(o, KBlock, id + 1)
  {
    hide Ops, LogicTest;
    OpsCount(1, o);
    TestCount(isAnd, o);
  }

  lemma CoalesceCount(id: nat, l: seq<Mark>, r: seq<Mark>, o: Opener)
    ensures Count(CoalesceMarks(id, l, r), o) == Count(l, o) + Count(r, o) + Is(o, KIf, id)
  {
    hide Ops;
    OpsCount(1, o);
    OpsCount(5, o);
  }

  lemma WhileCount(id: nat, c: seq<Mark>, b: seq<Mark>, o: Opener)
    ensures Count(WhileMarks(id, c, b), o) == Count(c, o) + Count(b, o) + Is(o, KBlock, id) + Is(o, KLoop, id)
    ensures Count(DoWhileMarks(id, b, c), o) == Count(WhileMarks(id, c, b), o)
    ensures Count(InfiniteMarks(id, b), o) == Count(b, o) + Is(o, KBlock, id) + Is(o, KLoop, id)
  {
    hide Ops, LoopHead, LoopTail, Leaves;
    OpsCount(1, o);
    WorkCount(1, o);
    LoopCount(id, o);
  }

  lemma CForCount(id: nat, i: seq<Mark>, c: seq<Mark>, b: seq<Mark>, u: seq<Mark>, o: Opener)
    ensures Count(CForMarks(id, i, c, b, u), o) == Count(i, o) + Count(c, o) + Count(b, o) + Count(u, o) + Is(o, KBlock, id) + Is(o, KLoop, id)
  {
    hide Ops, LoopHead, LoopTail, Leaves;
    OpsCount(1, o);
    WorkCount(1, o);
    LoopCount(id, o);
  }

  lemma ForCount(id: nat, bind: nat, i: seq<Mark>, b: seq<Mark>, o: Opener)
    ensures Count(ForMarks(id, bind, i, b), o) == Count(i, o) + Count(b, o) + Is(o, KBlock, id) + Is(o, KLoop, id)
  {
    hide Ops, LoopHead, LoopTail, Leaves;
    OpsCount(6, o);
    OpsCount(3, o);
    OpsCount(3 + bind, o);
    WorkCount(3, o);
    LoopCount(id, o);
  }

  lemma ComprehensionCount(id: nat, bind: nat, i: seq<Mark>, f: seq<Mark>, e: seq<Mark>, o: Opener)
    ensures Count(ComprehensionMarks(id, bind, i, f, e), o) == Count(i, o) + Count(f, o) + Count(e, o) + Is(o, KBlock, id) + Is(o, KLoop, id)
  {
    hide Ops, LoopHead, LoopTail, Leaves;
    OpsCount(1, o);
    OpsCount(2, o);
    OpsCount(3, o);
    WorkCount(6, o);
    OpsCount(8, o);
    OpsCount(4 + bind, o);
    LoopCount(id, o);
  }

  lemma SkipCount(id: nat, o: Opener)
    ensures Count(SkipMarks(id), o) == Is(o, KIf, id + 1)
  {
    hide Ops;
    WorkCount(4, o);
  }

  lemma TryCount(id: nat, binds: nat, b: seq<Mark>, h: seq<Mark>, f: seq<Mark>, o: Opener)
    ensures Count(TryMarks(id, binds, b, h, f), o) == Count(b, o) + Count(h, o) + Count(f, o) + Is(o, KIf, id)
  {
    hide Ops;
    OpsCount(1, o);
    WorkCount(1, o);
    OpsCount(binds, o);
  }

  // ---------------------------------------------------------------- uniqueness

  // No shape opens the same construct twice, and all it opens lies between the names it was given.
  lemma {:induction false} NamesUnique(n: Node, inner: Option<nat>, id: nat, o: Opener)
    ensures Named(Shape(n, inner, id), id, o)
    decreases n, 2
  {
    match n
    case Plain(acts) => ActsCount(acts, o);
    case Many(nodes) => AllUnique(nodes, inner, id, o);
    case Branch(_, _, _) => BranchUnique(n, inner, id, o);
    case Logic(_, _, _) => OperatorUnique(n, inner, id, o);
    case Coalesce(_, _) => OperatorUnique(n, inner, id, o);
    case While(_, _) => LoopUnique(n, inner, id, o);
    case Infinite(_) => LoopUnique(n, inner, id, o);
    case DoWhile(_, _) => LoopUnique(n, inner, id, o);
    case CFor(_, _, _, _) => CForUnique(n, inner, id, o);
    case For(_, _, _) => ForUnique(n, inner, id, o);
    case Comprehension(_, _, _, _) => ComprehensionUnique(n, inner, id, o);
    case Match(_, _) => MatchUnique(n, inner, id, o);
    case Try(_, _, _, _) => TryUnique(n, inner, id, o);
    case Break(_) => JumpUnique(n, inner, id, o);
    case Continue => JumpUnique(n, inner, id, o);
    case Function(_, ops) => OpsCount(ops, o);
  }

  lemma {:induction false} BranchUnique(n: Node, inner: Option<nat>, id: nat, o: Opener)
    requires n.Branch?
    ensures Named(Shape(n, inner, id), id, o)
    decreases n, 1
  {
    hide Shape, ShapeOption, Count, BranchMarks;
    BranchShape(n, inner, id);
    NamesUnique(n.cond, inner, id + 1, o);
    var c := Shape(n.cond, inner, id + 1);
    NamesUnique(n.thn, inner, c.next, o);
    var t := Shape(n.thn, inner, c.next);
    OpsCount(1, o);
    NoCount(o);
    OptionUnique(n.els, inner, t.next, Ops(1), [], o);
    BranchCount(id, c.marks, t.marks, ShapeOption(n.els, inner, t.next, Ops(1), []).marks, o);
  }

  lemma {:induction false} OperatorUnique(n: Node, inner: Option<nat>, id: nat, o: Opener)
    requires n.Logic? || n.Coalesce?
    ensures Named(Shape(n, inner, id), id, o)
    decreases n, 1
  {
    hide Shape, Count, LogicMarks, CoalesceMarks;
    var first := if n.Logic? then id + 2 else id + 1;
    NamesUnique(n.left, inner, first, o);
    var l := Shape(n.left, inner, first);
    NamesUnique(n.right, inner, l.next, o);
    var r := Shape(n.right, inner, l.next);
    if n.Logic? {
      LogicShape(n, inner, id);
      LogicCount(id, n.isAnd, l.marks, r.marks, o);
    } else {
      CoalesceShape(n, inner, id);
      CoalesceCount(id, l.marks, r.marks, o);
    }
  }

  lemma {:induction false} LoopUnique(n: Node, inner: Option<nat>, id: nat, o: Opener)
    requires n.While? || n.Infinite? || n.DoWhile?
    ensures Named(Shape(n, inner, id), id, o)
    decreases n, 1
  {
    hide Shape, Count, WhileMarks, InfiniteMarks, DoWhileMarks;
    if n.While? {
      WhileShape(n, inner, id);
      NamesUnique(n.cond, Some(id), id + 1, o);
      var c := Shape(n.cond, Some(id), id + 1);
      NamesUnique(n.body, Some(id), c.next, o);
      WhileCount(id, c.marks, Shape(n.body, Some(id), c.next).marks, o);
    } else if n.Infinite? {
      InfiniteShape(n, inner, id);
      NamesUnique(n.body, Some(id), id + 1, o);
      WhileCount(id, [], Shape(n.body, Some(id), id + 1).marks, o);
    } else {
      DoWhileShape(n, inner, id);
      NamesUnique(n.body, Some(id), id + 1, o);
      var b := Shape(n.body, Some(id), id + 1);
      NamesUnique(n.cond, Some(id), b.next, o);
      WhileCount(id, Shape(n.cond, Some(id), b.next).marks, b.marks, o);
    }
  }

  lemma {:induction false} CForUnique(n: Node, inner: Option<nat>, id: nat, o: Opener)
    requires n.CFor?
    ensures Named(Shape(n, inner, id), id, o)
    decreases n, 1
  {
    hide Shape, Count, CForMarks;
    CForShape(n, inner, id);
    NamesUnique(n.init, inner, id + 1, o);
    var i := Shape(n.init, inner, id + 1);
    NamesUnique(n.cond, Some(id), i.next, o);
    var c := Shape(n.cond, Some(id), i.next);
    NamesUnique(n.body, Some(id), c.next, o);
    var b := Shape(n.body, Some(id), c.next);
    NamesUnique(n.update, Some(id), b.next, o);
    CForCount(id, i.marks, c.marks, b.marks, Shape(n.update, Some(id), b.next).marks, o);
  }

  lemma {:induction false} ForUnique(n: Node, inner: Option<nat>, id: nat, o: Opener)
    requires n.For?
    ensures Named(Shape(n, inner, id), id, o)
    decreases n, 1
  {
    hide Shape, Count, ForMarks;
    ForShape(n, inner, id);
    NamesUnique(n.iter, inner, id + 1, o);
    var i := Shape(n.iter, inner, id + 1);
    NamesUnique(n.body, Some(id), i.next, o);
    ForCount(id, n.bind, i.marks, Shape(n.body, Some(id), i.next).marks, o);
  }

  lemma {:induction false} ComprehensionUnique(n: Node, inner: Option<nat>, id: nat, o: Opener)
    requires n.Comprehension?
    ensures Named(Shape(n, inner, id), id, o)
    decreases n, 1
  {
    hide Shape, ShapeOption, Count, SkipMarks, ComprehensionMarks;
    ComprehensionShape(n, inner, id);
    NamesUnique(n.iter, inner, id + 2, o);
    var i := Shape(n.iter, inner, id + 2);
    FilterUnique(n.filter, inner, i.next, id, o);
    var f := ShapeOption(n.filter, inner, i.next, [], SkipMarks(id));
    NamesUnique(n.element, inner, f.next, o);
    ComprehensionCount(id, n.bind, i.marks, f.marks, Shape(n.element, inner, f.next).marks, o);
  }

  // A filter opens a conditional of its own.
  lemma {:induction false} FilterUnique(n: Option<Node>, inner: Option<nat>, next: nat, id: nat, o: Opener)
    requires next >= id + 2
    ensures var s := ShapeOption(n, inner, next, [], SkipMarks(id));
      && s.next >= next && Count(s.marks, o) <= 1
      && (!(next <= o.owner < s.next) && o != Opener(KIf, id + 1) ==> Count(s.marks, o) == 0)
    decreases n, 3
  {
    hide Shape, SkipMarks;
    if n.Some? {
      NamesUnique(n.value, inner, next, o);
      SkipCount(id, o);
      CountJoin(Shape(n.value, inner, next).marks, SkipMarks(id), o);
    }
  }

  lemma {:induction false} MatchUnique(n: Node, inner: Option<nat>, id: nat, o: Opener)
    requires n.Match?
    ensures Named(Shape(n, inner, id), id, o)
    decreases n, 1
  {
    hide Shape, ShapeArms, Count, Ops;
    MatchShape(n, inner, id);
    NamesUnique(n.value, inner, id, o);
    var v := Shape(n.value, inner, id);
    ArmsUnique(n.arms, inner, v.next, o);
    OpsCount(3, o);
    CountJoin(v.marks, Ops(3), o);
    CountJoin(v.marks + Ops(3), ShapeArms(n.arms, inner, v.next).marks, o);
  }

  lemma {:induction false} TryUnique(n: Node, inner: Option<nat>, id: nat, o: Opener)
    requires n.Try?
    ensures Named(Shape(n, inner, id), id, o)
    decreases n, 1
  {
    hide Shape, ShapeOption, Count, TryMarks;
    TryShape(n, inner, id);
    NamesUnique(n.body, inner, id + 1, o);
    var b := Shape(n.body, inner, id + 1);
    NamesUnique(n.handler, inner, b.next, o);
    var h := Shape(n.handler, inner, b.next);
    OpsCount(1, o);
    NoCount(o);
    OptionUnique(n.always, inner, h.next, [], Ops(1), o);
    TryCount(id, if n.binds then 2 else 0, b.marks, h.marks, ShapeOption(n.always, inner, h.next, [], Ops(1)).marks, o);
  }

  lemma {:induction false} JumpUnique(n: Node, inner: Option<nat>, id: nat, o: Opener)
    requires n.Break? || n.Continue?
    ensures Named(Shape(n, inner, id), id, o)
    decreases n, 1
  {
    hide Shape, ShapeOption, Ops;
    JumpShape(n, inner, id);
    if n.Break? {
      OpsCount(1, o);
      OptionUnique(n.result, inner, id, [], Ops(1), o);
      CountJoin(ShapeOption(n.result, inner, id, [], Ops(1)).marks, if inner.Some? then [Jumps(false, Opener(KBlock, inner.value))] else [], o);
    }
  }

  lemma {:induction false} OptionUnique(n: Option<Node>, inner: Option<nat>, id: nat, absent: seq<Mark>, after: seq<Mark>, o: Opener)
    requires Count(absent, o) == 0 && Count(after, o) == 0
    ensures Named(ShapeOption(n, inner, id, absent, after), id, o)
    decreases n, 3
  {
    hide Shape;
    if n.Some? {
      NamesUnique(n.value, inner, id, o);
      CountJoin(Shape(n.value, inner, id).marks, after, o);
    }
  }

  lemma {:induction false} AllUnique(nodes: seq<Node>, inner: Option<nat>, id: nat, o: Opener)
    ensures Named(ShapeAll(nodes, inner, id), id, o)
    decreases nodes, 0
  {
    if nodes != [] {
      NamesUnique(nodes[0], inner, id, o);
      var s := Shape(nodes[0], inner, id);
      AllUnique(nodes[1..], inner, s.next, o);
      CountJoin(s.marks, ShapeAll(nodes[1..], inner, s.next).marks, o);
    }
  }

  lemma {:induction false} ArmsUnique(arms: seq<Arm>, inner: Option<nat>, id: nat, o: Opener)
    ensures Named(ShapeArms(arms, inner, id), id, o)
    decreases arms, 0
  {
    hide ShapeArm;
    if arms != [] {
      ArmUnique(arms[0], |arms| == 1, inner, id, o);
      var one := ShapeArm(arms[0], |arms| == 1, inner, id);
      ArmsUnique(arms[1..], inner, one.next, o);
      var rest := ShapeArms(arms[1..], inner, one.next);
      CountJoin(one.marks, rest.marks, o);
      CountJoin(one.marks + rest.marks, [Closes], o);
    }
  }

  lemma {:induction false} ArmUnique(a: Arm, last: bool, inner: Option<nat>, id: nat, o: Opener)
    ensures Named(ShapeArm(a, last, inner, id), id, o)
    decreases a, 4
  {
    hide Shape, ShapeOption, ShapeArm, Ops, Count;
    NoCount(o);
    OptionUnique(a.guard, inner, id + 2, [], [], o);
    var g := ShapeOption(a.guard, inner, id + 2, [], []);
    NamesUnique(a.body, inner, g.next, o);
    ArmAdds(a, last, inner, id, o);
  }

  lemma ArmAdds(a: Arm, last: bool, inner: Option<nat>, id: nat, o: Opener)
    ensures var g := ShapeOption(a.guard, inner, id + 2, [], []);
      var b := Shape(a.body, inner, g.next);
      var s := ShapeArm(a, last, inner, id);
      && s.next == b.next
      && Count(s.marks, o) <= Count(g.marks, o) + Count(b.marks, o) + Is(o, KIf, id) + Is(o, KIf, id + 1)
  {
    hide Shape, ShapeOption, Ops, Count;
    var g := ShapeOption(a.guard, inner, id + 2, [], []);
    OpsCount(if last then 1 else 0, o);
    ArmCount(a, id, g.marks, Shape(a.body, inner, g.next).marks, Ops(if last then 1 else 0), o);
  }

  lemma ArmCount(a: Arm, id: nat, g: seq<Mark>, b: seq<Mark>, default: seq<Mark>, o: Opener)
    requires Count(default, o) == 0
    ensures var test := [Opens(Opener(KIf, id))];
      && Count(Ops(a.ops) + b, o) == Count(b, o)
      && Count(Ops(a.ops) + (g + test + b + [Turns] + default), o) == Count(g, o) + Count(b, o) + Is(o, KIf, id)
      && Count(Ops(a.ops) + (test + b + [Turns] + default), o) == Count(b, o) + Is(o, KIf, id)
      && Count(Ops(a.ops) + (test + g + [Opens(Opener(KIf, id + 1))] + b + [Turns] + default + [Closes, Turns] + default), o)
         == Count(g, o) + Count(b, o) + Is(o, KIf, id) + Is(o, KIf, id + 1)
  {
    hide Ops;
    OpsCount(a.ops, o);
  }
}
