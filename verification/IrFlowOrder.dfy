// Where compiled code performs the acts of a program in the interpreter's order, and where it does not.
module IrFlowOrder {
  import opened Wrappers
  import opened IrShape
  import opened IrFlow

  // ---- jumps out of a part ----

  // The part holds a continue, or else a break, for a loop around it.
  predicate Passes(n: Node, continuing: bool)
    decreases n, 1
  {
    match n
    case Plain(_) => false
    case Many(nodes) => PassesAny(nodes, continuing)
    case Branch(cond, thn, els) => Passes(cond, continuing) || Passes(thn, continuing) || PassesOption(els, continuing)
    case Logic(_, left, right) => Passes(left, continuing) || Passes(right, continuing)
    case Coalesce(left, right) => Passes(left, continuing) || Passes(right, continuing)
    case While(cond, _) => Passes(cond, continuing)
    case Infinite(_) => false
    case DoWhile(_, cond) => Passes(cond, continuing)
    case CFor(init, cond, update, _) => Passes(init, continuing) || Passes(cond, continuing) || Passes(update, continuing)
    case For(iter, _, _) => Passes(iter, continuing)
    case Comprehension(iter, _, filter, element) => Passes(iter, continuing) || PassesOption(filter, continuing) || Passes(element, continuing)
    case Match(value, arms) => Passes(value, continuing) || PassesArm(arms, continuing)
    case Try(body, _, _, always) => Passes(body, continuing) || PassesOption(always, continuing)
    case Break(result) => !continuing || PassesOption(result, continuing)
    case Continue => continuing
    case Function(_, _) => false
  }

  predicate PassesOption(n: Option<Node>, continuing: bool)
    decreases n, 2
  {
    n.Some? && Passes(n.value, continuing)
  }

  predicate PassesAny(nodes: seq<Node>, continuing: bool)
    decreases nodes, 0
  {
    nodes != [] && (Passes(nodes[0], continuing) || PassesAny(nodes[1..], continuing))
  }

  predicate PassesArm(arms: seq<Arm>, continuing: bool)
    decreases arms, 0
  {
    arms != [] && (PassesGuard(arms[0], continuing) || PassesBody(arms[0], continuing) || PassesArm(arms[1..], continuing))
  }

  predicate PassesGuard(a: Arm, continuing: bool)
    decreases a, 3
  {
    PassesOption(a.guard, continuing)
  }

  predicate PassesBody(a: Arm, continuing: bool)
    decreases a, 3
  {
    Passes(a.body, continuing)
  }

  predicate MayJump(n: Node) {
    Passes(n, true) || Passes(n, false)
  }

  // A run that ends in a jump has met one of the part's own.
  predicate Explained(r: Run, breaks: bool, continues: bool) {
    (r.end.Broke? ==> breaks) && (r.end.Continued? ==> continues)
  }

  lemma {:induction false} JumpsPass(compiled: bool, n: Node, fuel: nat, answers: seq<bool>)
    ensures Explained(Flow(compiled, n, fuel, answers), Passes(n, false), Passes(n, true))
    decreases fuel, n, 3
  {
    match n
    case Plain(_) =>
    case Many(nodes) => JumpsPassAll(compiled, nodes, fuel, answers);
    case Branch(_, _, _) => JumpsPassBranch(compiled, n, fuel, answers);
    case Logic(_, _, _) => JumpsPassOperator(compiled, n, fuel, answers);
    case Coalesce(_, _) => JumpsPassOperator(compiled, n, fuel, answers);
    case While(_, _) => JumpsPassLoop(compiled, n, fuel, answers);
    case Infinite(_) => JumpsPassLoop(compiled, n, fuel, answers);
    case DoWhile(_, _) => JumpsPassLoop(compiled, n, fuel, answers);
    case CFor(init, _, _, _) =>
      JumpsPass(compiled, init, fuel, answers);
      JumpsPassLoop(compiled, n, fuel, Flow(compiled, init, fuel, answers).answers);
    case For(iter, _, _) =>
      JumpsPass(compiled, iter, fuel, answers);
      JumpsPassLoop(compiled, n, fuel, Flow(compiled, iter, fuel, answers).answers);
    case Comprehension(iter, _, _, _) =>
      JumpsPass(compiled, iter, fuel, answers);
      JumpsPassLoop(compiled, n, fuel, Flow(compiled, iter, fuel, answers).answers);
    case Match(value, arms) =>
      JumpsPass(compiled, value, fuel, answers);
      JumpsPassArms(compiled, arms, fuel, Flow(compiled, value, fuel, answers).answers);
    case Try(body, _, _, always) =>
      JumpsPass(compiled, body, fuel, answers);
      JumpsPassOption(compiled, always, fuel, Flow(compiled, body, fuel, answers).answers);
    case Break(result) => JumpsPassOption(compiled, result, fuel, answers);
    case Continue =>
    case Function(_, _) =>
  }

  lemma {:induction false} JumpsPassBranch(compiled: bool, n: Node, fuel: nat, answers: seq<bool>)
    requires n.Branch?
    ensures Explained(Flow(compiled, n, fuel, answers), Passes(n, false), Passes(n, true))
    decreases fuel, n, 2
  {
    JumpsPass(compiled, n.cond, fuel, answers);
    var left := Asked(Flow(compiled, n.cond, fuel, answers)).answers;
    JumpsPass(compiled, n.thn, fuel, left);
    JumpsPassOption(compiled, n.els, fuel, left);
  }

  lemma {:induction false} JumpsPassOperator(compiled: bool, n: Node, fuel: nat, answers: seq<bool>)
    requires n.Logic? || n.Coalesce?
    ensures Explained(Flow(compiled, n, fuel, answers), Passes(n, false), Passes(n, true))
    decreases fuel, n, 2
  {
    JumpsPass(compiled, n.left, fuel, answers);
    JumpsPass(compiled, n.right, fuel, Asked(Flow(compiled, n.left, fuel, answers)).answers);
  }

  lemma {:induction false} JumpsPassOption(compiled: bool, n: Option<Node>, fuel: nat, answers: seq<bool>)
    ensures Explained(FlowOption(compiled, n, fuel, answers), PassesOption(n, false), PassesOption(n, true))
    decreases fuel, n, 4
  {
    if n.Some? { JumpsPass(compiled, n.value, fuel, answers); }
  }

  lemma {:induction false} JumpsPassAll(compiled: bool, nodes: seq<Node>, fuel: nat, answers: seq<bool>)
    ensures Explained(FlowAll(compiled, nodes, fuel, answers), PassesAny(nodes, false), PassesAny(nodes, true))
    decreases fuel, nodes, 0
  {
    hide Flow, Passes;
    if nodes != [] {
      JumpsPass(compiled, nodes[0], fuel, answers);
      JumpsPassAll(compiled, nodes[1..], fuel, Flow(compiled, nodes[0], fuel, answers).answers);
    }
  }

  lemma {:induction false} JumpsPassArms(compiled: bool, arms: seq<Arm>, fuel: nat, answers: seq<bool>)
    ensures Explained(FlowArms(compiled, arms, fuel, answers), PassesArm(arms, false), PassesArm(arms, true))
    decreases fuel, arms, 0
  {
    hide Flow, Passes, FlowGuard, FlowBody, PassesGuard, PassesBody, Then, Asked, Explained;
    var breaks, continues := PassesArm(arms, false), PassesArm(arms, true);
    if arms != [] {
      var a, start := arms[0], Begin(answers);
      var test := if a.catchAll then start else Asked(start);
      JumpsPassGuard(compiled, a, fuel, test.answers);
      var guard := FlowGuard(compiled, a, fuel, test.answers);
      Weaker(guard, PassesGuard(a, false), PassesGuard(a, true), breaks, continues);
      var g := Then(test, guard);
      var ask := if a.guard.Some? then Asked(g) else g;
      JumpsPassBody(compiled, a, fuel, ask.answers);
      JumpsPassArms(compiled, arms[1..], fuel, ask.answers);
      JumpsPassArms(compiled, arms[1..], fuel, test.answers);
      Weaker(FlowBody(compiled, a, fuel, ask.answers), PassesBody(a, false), PassesBody(a, true), breaks, continues);
      Weaker(FlowArms(compiled, arms[1..], fuel, ask.answers), PassesArm(arms[1..], false), PassesArm(arms[1..], true), breaks, continues);
      Weaker(FlowArms(compiled, arms[1..], fuel, test.answers), PassesArm(arms[1..], false), PassesArm(arms[1..], true), breaks, continues);
      BeginExplained(answers, breaks, continues);
      ThenExplained(test, FlowArms(compiled, arms[1..], fuel, test.answers), breaks, continues);
      ThenExplained(test, guard, breaks, continues);
      AskedExplained(g, breaks, continues);
      ThenExplained(ask, FlowArms(compiled, arms[1..], fuel, ask.answers), breaks, continues);
      ThenExplained(ask, FlowBody(compiled, a, fuel, ask.answers), breaks, continues);
    } else {
      BeginExplained(answers, breaks, continues);
    }
  }

  lemma BeginExplained(answers: seq<bool>, breaks: bool, continues: bool)
    ensures Explained(Begin(answers), breaks, continues) && Explained(Asked(Begin(answers)), breaks, continues)
  {
  }

  lemma AskedExplained(a: Run, breaks: bool, continues: bool)
    ensures Explained(a, breaks, continues) ==> Explained(Asked(a), breaks, continues)
  {
  }

  lemma ThenExplained(a: Run, b: Run, breaks: bool, continues: bool)
    ensures Explained(a, breaks, continues) && Explained(b, breaks, continues) ==> Explained(Then(a, b), breaks, continues)
  {
  }

  // More jumps explain no less.
  lemma Weaker(a: Run, breaks: bool, continues: bool, more: bool, others: bool)
    requires Explained(a, breaks, continues) && (breaks ==> more) && (continues ==> others)
    ensures Explained(a, more, others)
  {
  }

  lemma {:induction false} JumpsPassGuard(compiled: bool, a: Arm, fuel: nat, answers: seq<bool>)
    ensures Explained(FlowGuard(compiled, a, fuel, answers), PassesGuard(a, false), PassesGuard(a, true))
    decreases fuel, a, 5
  {
    JumpsPassOption(compiled, a.guard, fuel, answers);
  }

  lemma {:induction false} JumpsPassBody(compiled: bool, a: Arm, fuel: nat, answers: seq<bool>)
    ensures Explained(FlowBody(compiled, a, fuel, answers), PassesBody(a, false), PassesBody(a, true))
    decreases fuel, a, 5
  {
    JumpsPass(compiled, a.body, fuel, answers);
  }

  lemma {:induction false} JumpsPassLoop(compiled: bool, n: Node, fuel: nat, answers: seq<bool>)
    requires IsLoop(n)
    ensures Explained(FlowLoop(compiled, n, fuel, answers), Passes(n, false), Passes(n, true))
    decreases fuel, n, 2
  {
    hide FlowRound, Passes;
    if fuel > 0 {
      JumpsPassRound(compiled, n, fuel, answers);
      var round := FlowRound(compiled, n, fuel, answers);
      if round.Again? { JumpsPassLoop(compiled, n, fuel - 1, round.run.answers); }
    }
  }

  lemma {:induction false} JumpsPassRound(compiled: bool, n: Node, fuel: nat, answers: seq<bool>)
    requires IsLoop(n)
    ensures var round := FlowRound(compiled, n, fuel, answers);
      round.Over? ==> Explained(round.run, Passes(n, false), Passes(n, true))
    ensures var round := FlowRound(compiled, n, fuel, answers);
      round.Again? ==> round.run.end.Normal?
    decreases fuel, n, 1
  {
    match n
    case While(cond, _) => JumpsPass(compiled, cond, fuel, answers);
    case Infinite(_) =>
    case DoWhile(body, cond) =>
      var b := Flow(compiled, body, fuel, answers);
      var done := if compiled then b else Resumed(b);
      JumpsPass(compiled, cond, fuel, done.answers);
    case CFor(_, cond, update, body) =>
      JumpsPass(compiled, cond, fuel, answers);
      var t := Asked(Flow(compiled, cond, fuel, answers));
      var b := Then(t, Flow(compiled, body, fuel, t.answers));
      var done := if compiled then b else Resumed(b);
      JumpsPass(compiled, update, fuel, done.answers);
    case For(_, _, _) =>
    case Comprehension(_, _, filter, element) =>
      var t := Asked(Begin(answers));
      JumpsPassOption(compiled, filter, fuel, t.answers);
      var f := Then(t, FlowOption(compiled, filter, fuel, t.answers));
      var g := if filter.Some? then Asked(f) else f;
      JumpsPass(compiled, element, fuel, g.answers);
  }

  // ---- programs on which both agree ----

  // No jump in a condition or an update, no continue that skips something, no guarded test with arms behind it, and no
  // jump over a finally block.
  predicate Alike(n: Node)
    decreases n, 1
  {
    match n
    case Plain(_) => true
    case Many(nodes) => AlikeAll(nodes)
    case Branch(cond, thn, els) => Alike(cond) && Alike(thn) && AlikeOption(els)
    case Logic(_, left, right) => Alike(left) && Alike(right)
    case Coalesce(left, right) => Alike(left) && Alike(right)
    case While(cond, body) => Alike(cond) && Alike(body) && !MayJump(cond)
    case Infinite(body) => Alike(body)
    case DoWhile(body, cond) => Alike(body) && Alike(cond) && !MayJump(cond) && !Passes(body, true)
    case CFor(init, cond, update, body) =>
      Alike(init) && Alike(cond) && Alike(update) && Alike(body) && !MayJump(cond) && !MayJump(update) && !Passes(body, true)
    case For(iter, _, body) => Alike(iter) && Alike(body) && !Passes(body, true)
    case Comprehension(iter, _, filter, element) => Alike(iter) && AlikeOption(filter) && Alike(element)
    case Match(value, arms) => Alike(value) && AlikeArms(arms)
    case Try(body, _, _, always) => Alike(body) && AlikeOption(always) && (always.Some? ==> !MayJump(body))
    case Break(result) => AlikeOption(result)
    case Continue => true
    case Function(_, _) => true
  }

  predicate AlikeOption(n: Option<Node>)
    decreases n, 2
  {
    n.Some? ==> Alike(n.value)
  }

  predicate AlikeAll(nodes: seq<Node>)
    decreases nodes, 0
  {
    nodes != [] ==> Alike(nodes[0]) && AlikeAll(nodes[1..])
  }

  predicate AlikeArms(arms: seq<Arm>)
    decreases arms, 0
  {
    arms != [] ==>
      && AlikeArm(arms[0]) && AlikeArms(arms[1..])
      && (!arms[0].catchAll && arms[0].guard.Some? ==> |arms| == 1)
  }

  predicate AlikeArm(a: Arm)
    decreases a, 3
  {
    AlikeOption(a.guard) && Alike(a.body)
  }

  lemma {:induction false} SameOrder(n: Node, fuel: nat, answers: seq<bool>)
    requires Alike(n)
    ensures Flow(true, n, fuel, answers) == Flow(false, n, fuel, answers)
    decreases fuel, n, 3
  {
    match n
    case Plain(_) =>
    case Many(nodes) => SameAll(nodes, fuel, answers);
    case Branch(cond, thn, els) =>
      SameOrder(cond, fuel, answers);
      var left := Asked(Flow(true, cond, fuel, answers)).answers;
      SameOrder(thn, fuel, left);
      SameOption(els, fuel, left);
    case Logic(_, left, right) =>
      SameOrder(left, fuel, answers);
      SameOrder(right, fuel, Asked(Flow(true, left, fuel, answers)).answers);
    case Coalesce(left, right) =>
      SameOrder(left, fuel, answers);
      SameOrder(right, fuel, Asked(Flow(true, left, fuel, answers)).answers);
    case While(_, _) => SameLoop(n, fuel, answers);
    case Infinite(_) => SameLoop(n, fuel, answers);
    case DoWhile(_, _) => SameLoop(n, fuel, answers);
    case CFor(init, _, _, _) =>
      SameOrder(init, fuel, answers);
      SameLoop(n, fuel, Flow(true, init, fuel, answers).answers);
    case For(iter, _, _) =>
      SameOrder(iter, fuel, answers);
      SameLoop(n, fuel, Flow(true, iter, fuel, answers).answers);
    case Comprehension(iter, _, _, _) =>
      SameOrder(iter, fuel, answers);
      SameLoop(n, fuel, Flow(true, iter, fuel, answers).answers);
    case Match(value, arms) =>
      SameOrder(value, fuel, answers);
      SameArms(arms, fuel, Flow(true, value, fuel, answers).answers);
    case Try(body, _, _, always) => SameTry(n, fuel, answers);
    case Break(result) => SameOption(result, fuel, answers);
    case Continue =>
    case Function(_, _) =>
  }

  lemma {:induction false} SameTry(n: Node, fuel: nat, answers: seq<bool>)
    requires n.Try? && Alike(n)
    ensures Flow(true, n, fuel, answers) == Flow(false, n, fuel, answers)
    decreases fuel, n, 2
  {
    SameOrder(n.body, fuel, answers);
    var b := Flow(true, n.body, fuel, answers);
    SameOption(n.always, fuel, b.answers);
    if n.always.Some? {
      JumpsPass(true, n.body, fuel, answers);
    } else {
      assert b.trace + [] == b.trace;
    }
  }

  lemma {:induction false} SameOption(n: Option<Node>, fuel: nat, answers: seq<bool>)
    requires AlikeOption(n)
    ensures FlowOption(true, n, fuel, answers) == FlowOption(false, n, fuel, answers)
    decreases fuel, n, 4
  {
    if n.Some? { SameOrder(n.value, fuel, answers); }
  }

  lemma {:induction false} SameAll(nodes: seq<Node>, fuel: nat, answers: seq<bool>)
    requires AlikeAll(nodes)
    ensures FlowAll(true, nodes, fuel, answers) == FlowAll(false, nodes, fuel, answers)
    decreases fuel, nodes, 0
  {
    hide Flow, Alike;
    if nodes != [] {
      SameOrder(nodes[0], fuel, answers);
      SameAll(nodes[1..], fuel, Flow(true, nodes[0], fuel, answers).answers);
    }
  }

  lemma {:induction false} SameArms(arms: seq<Arm>, fuel: nat, answers: seq<bool>)
    requires AlikeArms(arms)
    ensures FlowArms(true, arms, fuel, answers) == FlowArms(false, arms, fuel, answers)
    decreases fuel, arms, 0
  {
    hide Flow, Alike, FlowGuard, FlowBody, AlikeArm;
    if arms != [] {
      var a, start := arms[0], Begin(answers);
      var test := if a.catchAll then start else Asked(start);
      SameGuard(a, fuel, test.answers);
      var g := Then(test, FlowGuard(true, a, fuel, test.answers));
      var ask := if a.guard.Some? then Asked(g) else g;
      SameBody(a, fuel, ask.answers);
      SameArms(arms[1..], fuel, ask.answers);
      SameArms(arms[1..], fuel, test.answers);
      assert ask.trace + [] == ask.trace;
    }
  }

  lemma {:induction false} SameGuard(a: Arm, fuel: nat, answers: seq<bool>)
    requires AlikeArm(a)
    ensures FlowGuard(true, a, fuel, answers) == FlowGuard(false, a, fuel, answers)
    decreases fuel, a, 5
  {
    SameOption(a.guard, fuel, answers);
  }

  lemma {:induction false} SameBody(a: Arm, fuel: nat, answers: seq<bool>)
    requires AlikeArm(a)
    ensures FlowBody(true, a, fuel, answers) == FlowBody(false, a, fuel, answers)
    decreases fuel, a, 5
  {
    SameOrder(a.body, fuel, answers);
  }

  lemma {:induction false} SameLoop(n: Node, fuel: nat, answers: seq<bool>)
    requires IsLoop(n) && Alike(n)
    ensures FlowLoop(true, n, fuel, answers) == FlowLoop(false, n, fuel, answers)
    decreases fuel, n, 2
  {
    hide FlowRound, Alike;
    if fuel > 0 {
      SameRound(n, fuel, answers);
      var round := FlowRound(true, n, fuel, answers);
      if round.Again? { SameLoop(n, fuel - 1, round.run.answers); }
    }
  }

  lemma {:induction false} SameRound(n: Node, fuel: nat, answers: seq<bool>)
    requires IsLoop(n) && Alike(n)
    ensures FlowRound(true, n, fuel, answers) == FlowRound(false, n, fuel, answers)
    decreases fuel, n, 1
  {
    match n
    case While(cond, body) =>
      SameOrder(cond, fuel, answers);
      JumpsPass(true, cond, fuel, answers);
      SameOrder(body, fuel, Asked(Flow(true, cond, fuel, answers)).answers);
    case Infinite(body) => SameOrder(body, fuel, answers);
    case DoWhile(body, cond) =>
      SameOrder(body, fuel, answers);
      JumpsPass(true, body, fuel, answers);
      var b := Flow(true, body, fuel, answers);
      SameOrder(cond, fuel, b.answers);
      JumpsPass(true, cond, fuel, b.answers);
    case CFor(_, cond, update, body) =>
      SameOrder(cond, fuel, answers);
      JumpsPass(true, cond, fuel, answers);
      var t := Asked(Flow(true, cond, fuel, answers));
      SameOrder(body, fuel, t.answers);
      JumpsPass(true, body, fuel, t.answers);
      var b := Then(t, Flow(true, body, fuel, t.answers));
      SameOrder(update, fuel, b.answers);
      JumpsPass(true, update, fuel, b.answers);
    case For(_, _, body) =>
      var left := Asked(Begin(answers)).answers;
      SameOrder(body, fuel, left);
      JumpsPass(true, body, fuel, left);
    case Comprehension(_, _, filter, element) =>
      var t := Asked(Begin(answers));
      SameOption(filter, fuel, t.answers);
      var f := Then(t, FlowOption(true, filter, fuel, t.answers));
      var g := if filter.Some? then Asked(f) else f;
      SameOrder(element, fuel, g.answers);
  }
}
