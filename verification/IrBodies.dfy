// Every function defined anywhere in a program is compiled, and nothing else is.
module IrBodies {
  import opened Wrappers
  import opened IrShape
  import opened IrLabels

  // The body of a function defined in the part, or in a function defined in it; arms behind one that always matches
  // are not looked at.
  predicate Defines(n: Node, f: Node)
    decreases n, 1
  {
    match n
    case Plain(_) => false
    case Many(nodes) => AnyDefines(nodes, f)
    case Branch(cond, thn, els) => Defines(cond, f) || Defines(thn, f) || OptionDefines(els, f)
    case Logic(_, left, right) => Defines(left, f) || Defines(right, f)
    case Coalesce(left, right) => Defines(left, f) || Defines(right, f)
    case While(cond, body) => Defines(cond, f) || Defines(body, f)
    case Infinite(body) => Defines(body, f)
    case DoWhile(body, cond) => Defines(body, f) || Defines(cond, f)
    case CFor(init, cond, update, body) => Defines(init, f) || Defines(cond, f) || Defines(update, f) || Defines(body, f)
    case For(iter, _, body) => Defines(iter, f) || Defines(body, f)
    case Comprehension(iter, _, filter, element) => Defines(iter, f) || OptionDefines(filter, f) || Defines(element, f)
    case Match(value, arms) => Defines(value, f) || ArmDefines(arms, f)
    case Try(body, _, handler, always) => Defines(body, f) || Defines(handler, f) || OptionDefines(always, f)
    case Break(result) => OptionDefines(result, f)
    case Continue => false
    case Function(body, _) => body == f || Defines(body, f)
  }

  predicate OptionDefines(n: Option<Node>, f: Node)
    decreases n, 2
  {
    n.Some? && Defines(n.value, f)
  }

  predicate AnyDefines(nodes: seq<Node>, f: Node)
    decreases nodes, 0
  {
    nodes != [] && (Defines(nodes[0], f) || AnyDefines(nodes[1..], f))
  }

  predicate ArmDefines(arms: seq<Arm>, f: Node)
    decreases arms, 0
  {
    arms != [] && (OneDefines(arms[0], f) || (!CatchesAll(arms[0]) && ArmDefines(arms[1..], f)))
  }

  predicate OneDefines(a: Arm, f: Node)
    decreases a, 3
  {
    OptionDefines(a.guard, f) || Defines(a.body, f)
  }

  lemma {:induction false} BodiesOf(n: Node, inner: Option<nat>, id: nat, f: Node)
    ensures f in Shape(n, inner, id).bodies <==> Defines(n, f)
    decreases n, 2
  {
    match n
    case Plain(_) =>
    case Many(nodes) => BodiesAll(nodes, inner, id, f);
    case Branch(cond, thn, els) =>
      BranchShape(n, inner, id);
      var c := Shape(cond, inner, id + 1);
      var t := Shape(thn, inner, c.next);
      BodiesOf(cond, inner, id + 1, f);
      BodiesOf(thn, inner, c.next, f);
      BodiesOption(els, inner, t.next, Ops(1), [], f);
    case Logic(_, left, right) =>
      BodiesOf(left, inner, id + 2, f);
      BodiesOf(right, inner, Shape(left, inner, id + 2).next, f);
    case Coalesce(left, right) =>
      BodiesOf(left, inner, id + 1, f);
      BodiesOf(right, inner, Shape(left, inner, id + 1).next, f);
    case While(cond, body) =>
      BodiesOf(cond, Some(id), id + 1, f);
      BodiesOf(body, Some(id), Shape(cond, Some(id), id + 1).next, f);
    case Infinite(body) => BodiesOf(body, Some(id), id + 1, f);
    case DoWhile(body, cond) =>
      BodiesOf(body, Some(id), id + 1, f);
      BodiesOf(cond, Some(id), Shape(body, Some(id), id + 1).next, f);
    case CFor(_, _, _, _) => BodiesCFor(n, inner, id, f);
    case For(iter, _, body) =>
      BodiesOf(iter, inner, id + 1, f);
      BodiesOf(body, Some(id), Shape(iter, inner, id + 1).next, f);
    case Comprehension(_, _, _, _) => BodiesComprehension(n, inner, id, f);
    case Match(value, arms) =>
      BodiesOf(value, inner, id, f);
      BodiesArms(arms, inner, Shape(value, inner, id).next, f);
    case Try(_, _, _, _) => BodiesTry(n, inner, id, f);
    case Break(result) => BodiesOption(result, inner, id, [], Ops(1), f);
    case Continue =>
    case Function(body, _) => BodiesOf(body, None, 0, f);
  }

  lemma {:induction false} BodiesCFor(n: Node, inner: Option<nat>, id: nat, f: Node)
    requires n.CFor?
    ensures f in Shape(n, inner, id).bodies <==> Defines(n, f)
    decreases n, 1
  {
    hide Shape;
    CForShape(n, inner, id);
    var i := Shape(n.init, inner, id + 1).next;
    var c := Shape(n.cond, Some(id), i).next;
    var b := Shape(n.body, Some(id), c).next;
    BodiesOf(n.init, inner, id + 1, f);
    BodiesOf(n.cond, Some(id), i, f);
    BodiesOf(n.body, Some(id), c, f);
    BodiesOf(n.update, Some(id), b, f);
  }

  lemma {:induction false} BodiesComprehension(n: Node, inner: Option<nat>, id: nat, f: Node)
    requires n.Comprehension?
    ensures f in Shape(n, inner, id).bodies <==> Defines(n, f)
    decreases n, 1
  {
    hide Shape, ShapeOption, SkipMarks;
    ComprehensionShape(n, inner, id);
    var i := Shape(n.iter, inner, id + 2).next;
    var e := ShapeOption(n.filter, inner, i, [], SkipMarks(id)).next;
    BodiesOf(n.iter, inner, id + 2, f);
    BodiesOption(n.filter, inner, i, [], SkipMarks(id), f);
    BodiesOf(n.element, inner, e, f);
  }

  lemma {:induction false} BodiesTry(n: Node, inner: Option<nat>, id: nat, f: Node)
    requires n.Try?
    ensures f in Shape(n, inner, id).bodies <==> Defines(n, f)
    decreases n, 1
  {
    hide Shape, ShapeOption;
    TryShape(n, inner, id);
    var b := Shape(n.body, inner, id + 1).next;
    var h := Shape(n.handler, inner, b).next;
    BodiesOf(n.body, inner, id + 1, f);
    BodiesOf(n.handler, inner, b, f);
    BodiesOption(n.always, inner, h, [], Ops(1), f);
  }

  lemma {:induction false} BodiesOption(n: Option<Node>, inner: Option<nat>, id: nat, absent: seq<Mark>, after: seq<Mark>, f: Node)
    ensures f in ShapeOption(n, inner, id, absent, after).bodies <==> OptionDefines(n, f)
    decreases n, 3
  {
    hide Shape, Defines;
    if n.Some? { BodiesOf(n.value, inner, id, f); }
  }

  lemma {:induction false} BodiesAll(nodes: seq<Node>, inner: Option<nat>, id: nat, f: Node)
    ensures f in ShapeAll(nodes, inner, id).bodies <==> AnyDefines(nodes, f)
    decreases nodes, 0
  {
    hide Shape, Defines;
    if nodes != [] {
      BodiesOf(nodes[0], inner, id, f);
      BodiesAll(nodes[1..], inner, Shape(nodes[0], inner, id).next, f);
    }
  }

  lemma {:induction false} BodiesArms(arms: seq<Arm>, inner: Option<nat>, id: nat, f: Node)
    ensures f in ShapeArms(arms, inner, id).bodies <==> ArmDefines(arms, f)
    decreases arms, 0
  {
    hide ShapeArm, OneDefines;
    if arms != [] {
      BodiesArm(arms[0], |arms| == 1, inner, id, f);
      BodiesArms(arms[1..], inner, ShapeArm(arms[0], |arms| == 1, inner, id).next, f);
    }
  }

  lemma {:induction false} BodiesArm(a: Arm, last: bool, inner: Option<nat>, id: nat, f: Node)
    ensures f in ShapeArm(a, last, inner, id).bodies <==> OneDefines(a, f)
    decreases a, 4
  {
    hide Shape, ShapeOption, ShapeArm, ArmTest, Defines, OptionDefines;
    ArmShape(a, last, inner, id);
    BodiesOption(a.guard, inner, id + 2, [], [], f);
    BodiesOf(a.body, inner, ShapeOption(a.guard, inner, id + 2, [], []).next, f);
  }

  // Each function of a program that compiles has code of its own.
  lemma FunctionCompiled(program: Node, functions: seq<seq<Ins>>, f: Node)
    requires Defines(program, f) && |functions| == |Shape(program, None, 0).bodies|
    requires forall i: nat :: i < |functions| ==> Realizes(functions[i], Shape(program, None, 0).bodies[i])
    ensures exists i: nat :: i < |functions| && Realizes(functions[i], f)
  {
    hide Shape, Defines, Realizes;
    BodiesOf(program, None, 0, f);
    var bodies := Shape(program, None, 0).bodies;
    var i: nat :| i < |bodies| && bodies[i] == f;
    assert Realizes(functions[i], f);
  }
}
