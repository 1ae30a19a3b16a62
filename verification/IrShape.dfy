// The control skeleton of src/compiler/compile.rs: every construct that opens, closes
// or branches, with everything else reduced to straight-line instructions.  The
// compiler computes branch labels from a depth counter; the shape of a program says,
// without any counting, which construct each branch is meant for.  Of the other
// instructions only those are told apart that a run can show or that change a condition.
module IrShape {
  import opened Wrappers

  // ---------------------------------------------------------------- the skeleton of a program

  datatype Node =
    | Plain(acts: seq<nat>)
    | Many(nodes: seq<Node>)
    | Branch(cond: Node, thn: Node, els: Option<Node>)
    | Logic(isAnd: bool, left: Node, right: Node)
    | Coalesce(left: Node, right: Node)
    | While(cond: Node, body: Node)
    | Infinite(body: Node)
    | DoWhile(body: Node, cond: Node)
    | CFor(init: Node, cond: Node, update: Node, body: Node)
    | For(iter: Node, bind: nat, body: Node)
    | Comprehension(iter: Node, bind: nat, filter: Option<Node>, element: Node)
    | Match(value: Node, arms: seq<Arm>)
    | Try(body: Node, binds: bool, handler: Node, always: Option<Node>)
    | Break(result: Option<Node>)
    | Continue
    | Function(body: Node, ops: nat)

  // A catch-all arm binds; any other arm tests.
  datatype Arm = Arm(catchAll: bool, ops: nat, guard: Option<Node>, body: Node)

  // ---------------------------------------------------------------- instructions and marks

  // Straight-line work: the program's own acts, the negation of a condition, the constant false, the step of a
  // counter to the next element, and everything else.
  datatype Work = Quiet | Act(name: nat) | Negate | False | Advance

  datatype Ins = Block | Loop | If | Else | End | Br(to: nat) | BrIf(to: nat) | Do(work: Work)

  datatype Kind = KBlock | KLoop | KIf | KElse

  // An open construct, named by the place in the program that opened it.
  datatype Opener = Opener(kind: Kind, owner: nat)

  // What an instruction is for.
  datatype Mark =
    | Opens(opener: Opener)
    | Turns
    | Closes
    | Jumps(conditional: bool, target: Opener)
    | Works(work: Work)

  // Whether an instruction does what its mark says, and what is open afterwards.
  function Take(i: Ins, m: Mark, open: seq<Opener>): Option<seq<Opener>> {
    match m
    case Opens(o) =>
      if (i == Block && o.kind == KBlock) || (i == Loop && o.kind == KLoop) || (i == If && o.kind == KIf) then Some(open + [o]) else None
    case Turns =>
      if i == Else && open != [] && open[|open| - 1].kind == KIf
      then Some(open[..|open| - 1] + [Opener(KElse, open[|open| - 1].owner)]) else None
    case Closes => if i == End && open != [] then Some(open[..|open| - 1]) else None
    case Jumps(conditional, target) =>
      if (if conditional then i.BrIf? else i.Br?) && i.to < |open| && open[|open| - 1 - i.to] == target then Some(open) else None
    case Works(w) => if i == Do(w) then Some(open) else None
  }

  // Reading code against its marks: every label resolves to its target.
  function Read(code: seq<Ins>, marks: seq<Mark>): Option<seq<Opener>> {
    if code == [] && marks == [] then Some([])
    else if code == [] || marks == [] then None
    else
      match Read(code[..|code| - 1], marks[..|marks| - 1])
      case None => None
      case Some(open) => Take(code[|code| - 1], marks[|marks| - 1], open)
  }

  // ---------------------------------------------------------------- the shape of a program

  // The marks of a part, the next unused name, and the bodies of the functions defined in it.
  datatype Shaped = Shaped(marks: seq<Mark>, next: nat, bodies: seq<Node>)

  function Ops(n: nat): seq<Mark> {
    if n == 0 then [] else Ops(n - 1) + [Works(Quiet)]
  }

  function Acts(names: seq<nat>): seq<Mark> {
    if names == [] then [] else Acts(names[..|names| - 1]) + [Works(Act(names[|names| - 1]))]
  }

  // The end of a condition that is tested for being false.
  const NOT := [Works(Negate)]

  const STEP := [Works(Advance)]

  function LoopHead(id: nat): seq<Mark> {
    [Opens(Opener(KBlock, id)), Opens(Opener(KLoop, id))]
  }

  function Leaves(id: nat): Mark {
    Jumps(true, Opener(KBlock, id))
  }

  function LoopTail(id: nat): seq<Mark> {
    [Jumps(false, Opener(KLoop, id)), Closes, Closes]
  }

  // What each construct puts around its parts.
  function BranchMarks(id: nat, c: seq<Mark>, t: seq<Mark>, f: seq<Mark>): seq<Mark> {
    c + [Opens(Opener(KIf, id))] + t + [Turns] + f + [Closes]
  }

  function LogicTest(isAnd: bool): seq<Mark> {
    Ops(1) + if isAnd then NOT else []
  }

  function LogicMarks(id: nat, isAnd: bool, l: seq<Mark>, r: seq<Mark>): seq<Mark> {
    l + Ops(1) + [Opens(Opener(KBlock, id)), Opens(Opener(KBlock, id + 1))] + LogicTest(isAnd) + [Leaves(id + 1)] + r + Ops(1)
    + [Closes, Closes] + Ops(1)
  }

  function CoalesceMarks(id: nat, l: seq<Mark>, r: seq<Mark>): seq<Mark> {
    l + Ops(5) + [Opens(Opener(KIf, id))] + r + [Turns] + Ops(1) + [Closes]
  }

  function WhileMarks(id: nat, c: seq<Mark>, b: seq<Mark>): seq<Mark> {
    LoopHead(id) + c + NOT + [Leaves(id)] + b + LoopTail(id)
  }

  function InfiniteMarks(id: nat, b: seq<Mark>): seq<Mark> {
    LoopHead(id) + b + Ops(1) + LoopTail(id) + Ops(1)
  }

  function DoWhileMarks(id: nat, b: seq<Mark>, c: seq<Mark>): seq<Mark> {
    LoopHead(id) + b + c + NOT + [Leaves(id)] + LoopTail(id)
  }

  function CForMarks(id: nat, i: seq<Mark>, c: seq<Mark>, b: seq<Mark>, u: seq<Mark>): seq<Mark> {
    i + LoopHead(id) + c + NOT + [Leaves(id)] + b + u + LoopTail(id)
  }

  function ForMarks(id: nat, bind: nat, i: seq<Mark>, b: seq<Mark>): seq<Mark> {
    i + Ops(6) + LoopHead(id) + Ops(3) + [Leaves(id)] + Ops(3 + bind) + b + (Ops(3) + STEP) + LoopTail(id)
  }

  // A filtered element goes back to the loop from inside a conditional.
  function SkipMarks(id: nat): seq<Mark> {
    NOT + [Opens(Opener(KIf, id + 1))] + (Ops(4) + STEP) + [Jumps(false, Opener(KLoop, id)), Closes]
  }

  function ComprehensionHead(id: nat, bind: nat, i: seq<Mark>): seq<Mark> {
    Ops(2) + i + Ops(8) + (LoopHead(id) + Ops(3) + [Leaves(id)]) + Ops(4 + bind)
  }

  function ComprehensionMarks(id: nat, bind: nat, i: seq<Mark>, f: seq<Mark>, e: seq<Mark>): seq<Mark> {
    ComprehensionHead(id, bind, i) + f + Ops(1) + e + (Ops(6) + STEP) + LoopTail(id) + Ops(1)
  }

  function TryMarks(id: nat, binds: nat, b: seq<Mark>, h: seq<Mark>, f: seq<Mark>): seq<Mark> {
    b + (Ops(1) + [Works(False)]) + [Opens(Opener(KIf, id))] + Ops(binds) + h + Ops(1) + [Closes] + f
  }

  // `inner` is the innermost loop of the same function; `id` is the first unused name.
  function Shape(n: Node, inner: Option<nat>, id: nat): Shaped
    decreases n, 1
  {
    match n
    case Plain(acts) => Shaped(Acts(acts), id, [])
    case Many(nodes) => ShapeAll(nodes, inner, id)
    case Branch(cond, thn, els) =>
      var c := Shape(cond, inner, id + 1);
      var t := Shape(thn, inner, c.next);
      var f := ShapeOption(els, inner, t.next, Ops(1), []);
      Shaped(BranchMarks(id, c.marks, t.marks, f.marks), f.next, c.bodies + t.bodies + f.bodies)
    case Logic(isAnd, left, right) =>
      var l := Shape(left, inner, id + 2);
      var r := Shape(right, inner, l.next);
      Shaped(LogicMarks(id, isAnd, l.marks, r.marks), r.next, l.bodies + r.bodies)
    case Coalesce(left, right) =>
      var l := Shape(left, inner, id + 1);
      var r := Shape(right, inner, l.next);
      Shaped(CoalesceMarks(id, l.marks, r.marks), r.next, l.bodies + r.bodies)
    case While(cond, body) =>
      var c := Shape(cond, Some(id), id + 1);
      var b := Shape(body, Some(id), c.next);
      Shaped(WhileMarks(id, c.marks, b.marks), b.next, c.bodies + b.bodies)
    case Infinite(body) =>
      var b := Shape(body, Some(id), id + 1);
      Shaped(InfiniteMarks(id, b.marks), b.next, b.bodies)
    case DoWhile(body, cond) =>
      var b := Shape(body, Some(id), id + 1);
      var c := Shape(cond, Some(id), b.next);
      Shaped(DoWhileMarks(id, b.marks, c.marks), c.next, b.bodies + c.bodies)
    case CFor(init, cond, update, body) =>
      var i := Shape(init, inner, id + 1);
      var c := Shape(cond, Some(id), i.next);
      var b := Shape(body, Some(id), c.next);
      var u := Shape(update, Some(id), b.next);
      Shaped(CForMarks(id, i.marks, c.marks, b.marks, u.marks), u.next, i.bodies + c.bodies + b.bodies + u.bodies)
    case For(iter, bind, body) =>
      var i := Shape(iter, inner, id + 1);
      var b := Shape(body, Some(id), i.next);
      Shaped(ForMarks(id, bind, i.marks, b.marks), b.next, i.bodies + b.bodies)
    case Comprehension(iter, bind, filter, element) =>
      var i := Shape(iter, inner, id + 2);
      var f := ShapeOption(filter, inner, i.next, [], SkipMarks(id));
      var e := Shape(element, inner, f.next);
      Shaped(ComprehensionMarks(id, bind, i.marks, f.marks, e.marks), e.next, i.bodies + f.bodies + e.bodies)
    case Match(value, arms) =>
      var v := Shape(value, inner, id);
      var a := ShapeArms(arms, inner, v.next);
      Shaped(v.marks + Ops(3) + a.marks, a.next, v.bodies + a.bodies)
    case Try(body, binds, handler, always) =>
      var b := Shape(body, inner, id + 1);
      var h := Shape(handler, inner, b.next);
      var f := ShapeOption(always, inner, h.next, [], Ops(1));
      Shaped(TryMarks(id, if binds then 2 else 0, b.marks, h.marks, f.marks), f.next, b.bodies + h.bodies + f.bodies)
    case Break(result) =>
      var v := ShapeOption(result, inner, id, [], Ops(1));
      Shaped(v.marks + (if inner.Some? then [Jumps(false, Opener(KBlock, inner.value))] else []), v.next, v.bodies)
    case Continue => Shaped(if inner.Some? then [Jumps(false, Opener(KLoop, inner.value))] else [], id, [])
    case Function(body, ops) => Shaped(Ops(ops), id, [body] + Shape(body, None, 0).bodies)
  }

  // An optional part: what stands in for it, or what follows it.
  function ShapeOption(n: Option<Node>, inner: Option<nat>, id: nat, absent: seq<Mark>, after: seq<Mark>): Shaped
    decreases n, 2
  {
    match n
    case None => Shaped(absent, id, [])
    case Some(x) => var s := Shape(x, inner, id); Shaped(s.marks + after, s.next, s.bodies)
  }

  function ShapeAll(nodes: seq<Node>, inner: Option<nat>, id: nat): Shaped
    decreases nodes, 0
  {
    if nodes == [] then Shaped([], id, [])
    else
      var s := Shape(nodes[0], inner, id);
      var rest := ShapeAll(nodes[1..], inner, s.next);
      Shaped(s.marks + rest.marks, rest.next, s.bodies + rest.bodies)
  }

  // Each arm nests in the else part of the one before it.
  function ShapeArms(arms: seq<Arm>, inner: Option<nat>, id: nat): Shaped
    decreases arms, 0
  {
    if arms == [] then Shaped([], id, [])
    else
      var one := ShapeArm(arms[0], |arms| == 1, inner, id);
      if CatchesAll(arms[0]) then one
      else
        var rest := ShapeArms(arms[1..], inner, one.next);
        Shaped(one.marks + rest.marks + [Closes], rest.next, one.bodies + rest.bodies)
  }

  // An arm that always matches ends the chain.
  predicate CatchesAll(a: Arm) {
    a.catchAll && a.guard.None?
  }

  function ShapeArm(a: Arm, last: bool, inner: Option<nat>, id: nat): Shaped
    decreases a, 2
  {
    var g := ShapeOption(a.guard, inner, id + 2, [], []);
    var b := Shape(a.body, inner, g.next);
    var default := Ops(if last then 1 else 0);
    var test := [Opens(Opener(KIf, id))];
    if CatchesAll(a) then Shaped(Ops(a.ops) + b.marks, b.next, g.bodies + b.bodies)
    else if a.catchAll then Shaped(Ops(a.ops) + (g.marks + test + b.marks + [Turns] + default), b.next, g.bodies + b.bodies)
    else if a.guard.None? then Shaped(Ops(a.ops) + (test + b.marks + [Turns] + default), b.next, g.bodies + b.bodies)
    else Shaped(Ops(a.ops) + (test + g.marks + [Opens(Opener(KIf, id + 1))] + b.marks + [Turns] + default + [Closes, Turns] + default), b.next, g.bodies + b.bodies)
  }

  // ---------------------------------------------------------------- stray jumps

  // A break or continue with no loop around it in the same function; nothing after a
  // catch-all arm is looked at.
  predicate Stray(n: Node, inLoop: bool)
    decreases n, 1
  {
    match n
    case Plain(_) => false
    case Many(nodes) => StrayAny(nodes, inLoop)
    case Branch(cond, thn, els) => Stray(cond, inLoop) || Stray(thn, inLoop) || StrayOption(els, inLoop)
    case Logic(_, left, right) => Stray(left, inLoop) || Stray(right, inLoop)
    case Coalesce(left, right) => Stray(left, inLoop) || Stray(right, inLoop)
    case While(cond, body) => Stray(cond, true) || Stray(body, true)
    case Infinite(body) => Stray(body, true)
    case DoWhile(body, cond) => Stray(body, true) || Stray(cond, true)
    case CFor(init, cond, update, body) => Stray(init, inLoop) || Stray(cond, true) || Stray(update, true) || Stray(body, true)
    case For(iter, _, body) => Stray(iter, inLoop) || Stray(body, true)
    case Comprehension(iter, _, filter, element) => Stray(iter, inLoop) || StrayOption(filter, inLoop) || Stray(element, inLoop)
    case Match(value, arms) => Stray(value, inLoop) || StrayArms(arms, inLoop)
    case Try(body, _, handler, always) => Stray(body, inLoop) || Stray(handler, inLoop) || StrayOption(always, inLoop)
    case Break(value) => StrayOption(value, inLoop) || !inLoop
    case Continue => !inLoop
    case Function(body, _) => Stray(body, false)
  }

  predicate StrayOption(n: Option<Node>, inLoop: bool)
    decreases n, 2
  {
    n.Some? && Stray(n.value, inLoop)
  }

  predicate StrayAny(nodes: seq<Node>, inLoop: bool)
    decreases nodes, 0
  {
    nodes != [] && (Stray(nodes[0], inLoop) || StrayAny(nodes[1..], inLoop))
  }

  predicate StrayArms(arms: seq<Arm>, inLoop: bool)
    decreases arms, 0
  {
    arms != [] && (StrayArm(arms[0], inLoop) || (!CatchesAll(arms[0]) && StrayArms(arms[1..], inLoop)))
  }

  predicate StrayArm(a: Arm, inLoop: bool)
    decreases a, 2
  {
    StrayOption(a.guard, inLoop) || Stray(a.body, inLoop)
  }
}
