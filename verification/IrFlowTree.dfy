// The tree that stands for a program runs as the program does: every construct, in the order of compiled code.
module IrFlowTree {
  import opened Wrappers
  import opened IrShape
  import opened IrFlow
  import opened IrTree
  import opened IrTreeRun
  import Names = IrNames

  // What a loop's body makes of a round: it falls out of the loop's end or goes back to its head, or it leaves.
  predicate RoundMatches(w: Walk, round: Round, inner: Option<nat>, id: nat) {
    match round
    case Again(r) =>
      && w.test == Fresh && w.trace == r.trace && w.answers == r.answers && r.end.Normal?
      && (w.way == Fall || w.way == Jump(Opener(KLoop, id)))
    case Over(r) =>
      match r.end
      case Used => w.way.Spent?
      case Normal => w == Walk(Jump(Opener(KBlock, id)), Fresh, r.trace, r.answers)
      case Broke => inner.Some? && w == Walk(Jump(Opener(KBlock, inner.value)), Fresh, r.trace, r.answers)
      case Continued => inner.Some? && w == Walk(Jump(Opener(KLoop, inner.value)), Fresh, r.trace, r.answers)
  }

  // The tree of a loop between its head and the branch back.
  function Body(n: Node, inner: Option<nat>, id: nat): seq<Tree>
    requires IsLoop(n)
  {
    match n
    case While(cond, body) =>
      var c := Shape(cond, Some(id), id + 1).next;
      Grow(cond, Some(id), id + 1) + UNLESS + Leave(id) + Grow(body, Some(id), c)
    case Infinite(body) => Grow(body, Some(id), id + 1) + Steps(1)
    case DoWhile(body, cond) =>
      var b := Shape(body, Some(id), id + 1).next;
      Grow(body, Some(id), id + 1) + Grow(cond, Some(id), b) + UNLESS + Leave(id)
    case CFor(init, cond, update, body) =>
      var i := Shape(init, inner, id + 1).next;
      var c := Shape(cond, Some(id), i).next;
      var b := Shape(body, Some(id), c).next;
      Grow(cond, Some(id), i) + UNLESS + Leave(id) + Grow(body, Some(id), c) + Grow(update, Some(id), b)
    case For(iter, bind, body) =>
      Steps(3) + Leave(id) + Steps(3 + bind) + Grow(body, Some(id), Shape(iter, inner, id + 1).next) + Count(3)
    case Comprehension(iter, bind, filter, element) =>
      var i := Shape(iter, inner, id + 2).next;
      var f := ShapeOption(filter, inner, i, [], SkipMarks(id)).next;
      Steps(3) + Leave(id) + Steps(4 + bind) + GrowOption(filter, inner, i, [], SkipTree(id)) + Steps(1) + Grow(element, inner, f) + Count(6)
  }

  predicate Outside(inner: Option<nat>, id: nat) {
    inner.Some? ==> inner.value < id
  }

  // ---- the names of parts ----

  lemma Later(n: Node, inner: Option<nat>, id: nat)
    ensures Shape(n, inner, id).next >= id
  {
    hide Shape, Names.Count;
    Names.NamesUnique(n, inner, id, Opener(KBlock, 0));
  }

  lemma OptionLater(n: Option<Node>, inner: Option<nat>, id: nat, absent: seq<Mark>, after: seq<Mark>)
    ensures ShapeOption(n, inner, id, absent, after).next >= id
  {
    hide Shape;
    if n.Some? { Later(n.value, inner, id); }
  }

  lemma ArmLater(a: Arm, last: bool, inner: Option<nat>, id: nat)
    ensures ShapeArm(a, last, inner, id).next >= id
  {
    hide Shape, ShapeArm, Names.Count;
    Names.ArmUnique(a, last, inner, id, Opener(KBlock, 0));
  }

  // ---- every construct ----

  lemma {:induction false} SourceWalk(n: Node, inner: Option<nat>, id: nat, fuel: nat, answers: seq<bool>)
    requires !Stray(n, inner.Some?) && Outside(inner, id)
    ensures Matches(WalkAll(Grow(n, inner, id), fuel, Fresh, answers), Flow(true, n, fuel, answers), inner)
    decreases fuel, n, 10
  {
    hide WalkAll;
    match n
    case Plain(acts) => ActsWalk(acts, fuel, answers);
    case Many(nodes) => AllWalk(nodes, inner, id, fuel, answers);
    case Branch(_, _, _) => BranchWalk(n, inner, id, fuel, answers);
    case Logic(_, _, _) => LogicWalk(n, inner, id, fuel, answers);
    case Coalesce(_, _) => CoalesceWalk(n, inner, id, fuel, answers);
    case While(_, _) => LoopWalk(n, inner, id, fuel, answers);
    case Infinite(_) => EndlessWalk(n, inner, id, fuel, answers);
    case DoWhile(_, _) => LoopWalk(n, inner, id, fuel, answers);
    case CFor(_, _, _, _) => CForWalk(n, inner, id, fuel, answers);
    case For(_, _, _) => ForWalk(n, inner, id, fuel, answers);
    case Comprehension(_, _, _, _) => ComprehensionWalk(n, inner, id, fuel, answers);
    case Match(_, _) => MatchWalk(n, inner, id, fuel, answers);
    case Try(_, _, _, _) => TryWalk(n, inner, id, fuel, answers);
    case Break(_) => BreakWalk(n, inner, id, fuel, answers);
    case Continue => WalkSingle(Exit(false, Opener(KLoop, inner.value)), fuel, Fresh, answers);
    case Function(_, ops) => StepsWalk(ops, fuel, answers);
  }

  lemma {:induction false} AllWalk(nodes: seq<Node>, inner: Option<nat>, id: nat, fuel: nat, answers: seq<bool>)
    requires !StrayAny(nodes, inner.Some?) && Outside(inner, id)
    ensures Matches(WalkAll(GrowAll(nodes, inner, id), fuel, Fresh, answers), FlowAll(true, nodes, fuel, answers), inner)
    decreases fuel, nodes, 0
  {
    hide WalkAll, Grow, Flow, Shape, Stray;
    if nodes == [] {
      WalkNone(fuel, Fresh, answers);
    } else {
      SourceWalk(nodes[0], inner, id, fuel, answers);
      Later(nodes[0], inner, id);
      var next, first := Shape(nodes[0], inner, id).next, Flow(true, nodes[0], fuel, answers);
      AllWalk(nodes[1..], inner, next, fuel, first.answers);
      ThenWalk(Grow(nodes[0], inner, id), GrowAll(nodes[1..], inner, next), fuel, answers, first, FlowAll(true, nodes[1..], fuel, first.answers), inner);
    }
  }

  // An optional part, with quiet work where it is missing or after it.
  lemma {:induction false} OptionWalk(n: Option<Node>, inner: Option<nat>, id: nat, absent: nat, after: nat, fuel: nat, answers: seq<bool>)
    requires !StrayOption(n, inner.Some?) && Outside(inner, id)
    ensures Matches(WalkAll(GrowOption(n, inner, id, Steps(absent), Steps(after)), fuel, Fresh, answers), FlowOption(true, n, fuel, answers), inner)
    decreases fuel, n, 10
  {
    hide WalkAll, Steps, Grow, Flow;
    if n.Some? {
      SourceWalk(n.value, inner, id, fuel, answers);
      ThenQuiet(Grow(n.value, inner, id), after, fuel, answers, Flow(true, n.value, fuel, answers), inner);
    } else {
      StepsWalk(absent, fuel, answers);
    }
  }

  lemma NoSteps()
    ensures Steps(0) == []
  {
  }

  lemma {:induction false} BranchWalk(n: Node, inner: Option<nat>, id: nat, fuel: nat, answers: seq<bool>)
    requires n.Branch? && !Stray(n, inner.Some?) && Outside(inner, id)
    ensures Matches(WalkAll(Grow(n, inner, id), fuel, Fresh, answers), Flow(true, n, fuel, answers), inner)
    decreases fuel, n, 8
  {
    hide WalkAll, Steps, Grow, GrowOption, Shape;
    BranchGrow(n, inner, id);
    var c := Shape(n.cond, inner, id + 1).next;
    var t := Shape(n.thn, inner, c).next;
    Later(n.cond, inner, id + 1);
    Later(n.thn, inner, c);
    SourceWalk(n.cond, inner, id + 1, fuel, answers);
    var r := Flow(true, n.cond, fuel, answers);
    var rest := Asked(r).answers;
    SourceWalk(n.thn, inner, c, fuel, rest);
    NoSteps();
    OptionWalk(n.els, inner, t, 1, 0, fuel, rest);
    var q := if Answer(r) then Flow(true, n.thn, fuel, rest) else FlowOption(true, n.els, fuel, rest);
    AskedThen(r, q);
    var els := GrowOption(n.els, inner, t, Steps(1), []);
    BothWalk(Grow(n.cond, inner, id + 1), Opener(KIf, id), Grow(n.thn, inner, c), els, fuel, answers, r, q, inner);
  }

  // A condition and the choice on it.
  lemma BothWalk(a: seq<Tree>, o: Tested, thn: seq<Tree>, els: seq<Tree>, fuel: nat, answers: seq<bool>, r: Run, q: Run, inner: Option<nat>)
    requires Matches(WalkAll(a, fuel, Fresh, answers), r, inner)
    requires Asked(r).end.Normal? ==> Matches(WalkAll(if Answer(r) then thn else els, fuel, Fresh, Asked(r).answers), q, inner)
    ensures Matches(WalkAll(a + [Choice(o, thn, true, els)], fuel, Fresh, answers), Then(Asked(r), q), inner)
  {
    hide WalkAll;
    AskedThen(r, q);
    if r.end.Normal? {
      ChoiceWalk(o, thn, true, els, fuel, r.answers, q, inner);
    }
    ThenWalk(a, [Choice(o, thn, true, els)], fuel, answers, r, Then(Asked(Begin(r.answers)), q), inner);
  }

  lemma {:induction false} CoalesceWalk(n: Node, inner: Option<nat>, id: nat, fuel: nat, answers: seq<bool>)
    requires n.Coalesce? && !Stray(n, inner.Some?) && Outside(inner, id)
    ensures Matches(WalkAll(Grow(n, inner, id), fuel, Fresh, answers), Flow(true, n, fuel, answers), inner)
    decreases fuel, n, 8
  {
    hide WalkAll, Steps;
    var l := Shape(n.left, inner, id + 1).next;
    Later(n.left, inner, id + 1);
    SourceWalk(n.left, inner, id + 1, fuel, answers);
    var r := Flow(true, n.left, fuel, answers);
    ThenQuiet(Grow(n.left, inner, id + 1), 5, fuel, answers, r, inner);
    var rest := Asked(r).answers;
    SourceWalk(n.right, inner, l, fuel, rest);
    StepsWalk(1, fuel, rest);
    var q := if Answer(r) then Flow(true, n.right, fuel, rest) else Begin(rest);
    ThenNothing(Asked(r));
    BothWalk(Grow(n.left, inner, id + 1) + Steps(5), Opener(KIf, id), Grow(n.right, inner, l), Steps(1), fuel, answers, r, q, inner);
  }

  // ---- && and || ----

  lemma TestWalk(id: nat, isAnd: bool, fuel: nat, answers: seq<bool>)
    ensures WalkAll((Steps(1) + if isAnd then UNLESS else []) + Leave(id), fuel, Fresh, answers) ==
      if answers == [] then Walk(Spent, Fresh, [], answers)
      else Walk(if answers[0] != isAnd then Jump(Opener(KBlock, id)) else Fall, Fresh, [], answers[1..])
  {
    hide WalkAll, Steps;
    var not := if isAnd then UNLESS else [];
    StepsWalk(1, fuel, answers);
    ExitWalk(isAnd, Opener(KBlock, id), fuel, answers);
    WalkJoin(Steps(1), not + Leave(id), fuel, Fresh, answers);
    assert (Steps(1) + not) + Leave(id) == Steps(1) + (not + Leave(id));
    var x := WalkAll(not + Leave(id), fuel, Fresh, answers);
    assert [] + x.trace == x.trace;
  }

  lemma DecidedWalk(id: nat, isAnd: bool, right: seq<Tree>, fuel: nat, answers: seq<bool>, q: Run, inner: Option<nat>)
    requires Outside(inner, id)
    requires answers != [] && answers[0] == isAnd ==> Matches(WalkAll(right, fuel, Fresh, answers[1..]), q, inner)
    ensures var test := (Steps(1) + if isAnd then UNLESS else []) + Leave(id + 1);
      var start := Begin(answers);
      Matches(WalkAll([Inside(Opener(KBlock, id), [Inside(Opener(KBlock, id + 1), test + right + Steps(1))])], fuel, Fresh, answers),
              if Answer(start) == isAnd then Then(Asked(start), q) else Asked(start), inner)
  {
    hide WalkAll, Steps;
    var test := (Steps(1) + if isAnd then UNLESS else []) + Leave(id + 1);
    var body := test + right + Steps(1);
    TestWalk(id + 1, isAnd, fuel, answers);
    assert body == test + (right + Steps(1));
    WalkJoin(test, right + Steps(1), fuel, Fresh, answers);
    if answers != [] && answers[0] == isAnd {
      ThenQuiet(right, 1, fuel, answers[1..], q, inner);
      NothingThen(answers[1..], q);
    }
    BlockWalk(Opener(KBlock, id + 1), body, fuel, answers);
    BlockWalk(Opener(KBlock, id), [Inside(Opener(KBlock, id + 1), body)], fuel, answers);
  }

  lemma {:induction false} LogicWalk(n: Node, inner: Option<nat>, id: nat, fuel: nat, answers: seq<bool>)
    requires n.Logic? && !Stray(n, inner.Some?) && Outside(inner, id)
    ensures Matches(WalkAll(Grow(n, inner, id), fuel, Fresh, answers), Flow(true, n, fuel, answers), inner)
    decreases fuel, n, 8
  {
    hide WalkAll, Steps;
    var l := Shape(n.left, inner, id + 2).next;
    Later(n.left, inner, id + 2);
    SourceWalk(n.left, inner, id + 2, fuel, answers);
    var r := Flow(true, n.left, fuel, answers);
    ThenQuiet(Grow(n.left, inner, id + 2), 1, fuel, answers, r, inner);
    var rest := Asked(r).answers;
    SourceWalk(n.right, inner, l, fuel, rest);
    var q := Flow(true, n.right, fuel, rest);
    var test := (Steps(1) + if n.isAnd then UNLESS else []) + Leave(id + 1);
    var both := [Inside(Opener(KBlock, id), [Inside(Opener(KBlock, id + 1), test + Grow(n.right, inner, l) + Steps(1))])];
    AskedThen(r, q);
    var start := Begin(r.answers);
    var decided := if Answer(start) == n.isAnd then Then(Asked(start), q) else Asked(start);
    if r.end.Normal? {
      DecidedWalk(id, n.isAnd, Grow(n.right, inner, l), fuel, r.answers, q, inner);
    }
    ThenWalk(Grow(n.left, inner, id + 2) + Steps(1), both, fuel, answers, r, decided, inner);
    ThenQuiet(Grow(n.left, inner, id + 2) + Steps(1) + both, 1, fuel, answers, Then(r, decided), inner);
  }

  // ---- jumps and try ----

  lemma {:induction false} BreakWalk(n: Node, inner: Option<nat>, id: nat, fuel: nat, answers: seq<bool>)
    requires n.Break? && !Stray(n, inner.Some?) && Outside(inner, id)
    ensures Matches(WalkAll(Grow(n, inner, id), fuel, Fresh, answers), Flow(true, n, fuel, answers), inner)
    decreases fuel, n, 8
  {
    hide WalkAll, Steps;
    NoSteps();
    OptionWalk(n.result, inner, id, 0, 1, fuel, answers);
    var r := FlowOption(true, n.result, fuel, answers);
    var o := Opener(KBlock, inner.value);
    WalkSingle(Exit(false, o), fuel, Fresh, r.answers);
    ThenWalk(GrowOption(n.result, inner, id, [], Steps(1)), [Exit(false, o)], fuel, answers, r, Run(Broke, [], r.answers), inner);
  }

  // The handler of a try block is never entered.
  lemma HandlerWalk(o: Tested, handler: seq<Tree>, fuel: nat, answers: seq<bool>)
    ensures WalkAll([Step(False)] + [Choice(o, handler, false, [])], fuel, Fresh, answers) == Walk(Fall, Fresh, [], answers)
  {
    hide WalkAll;
    OneStep(False, fuel, Fresh, answers);
    WalkJoin([Step(False)], [Choice(o, handler, false, [])], fuel, Fresh, answers);
    WalkSingle(Choice(o, handler, false, []), fuel, Off, answers);
  }

  lemma {:induction false} TryWalk(n: Node, inner: Option<nat>, id: nat, fuel: nat, answers: seq<bool>)
    requires n.Try? && !Stray(n, inner.Some?) && Outside(inner, id)
    ensures Matches(WalkAll(Grow(n, inner, id), fuel, Fresh, answers), Flow(true, n, fuel, answers), inner)
    decreases fuel, n, 8
  {
    hide WalkAll, Steps, Grow;
    TryGrow(n, inner, id);
    var b := Shape(n.body, inner, id + 1).next;
    var h := Shape(n.handler, inner, b).next;
    Later(n.body, inner, id + 1);
    Later(n.handler, inner, b);
    SourceWalk(n.body, inner, id + 1, fuel, answers);
    var r := Flow(true, n.body, fuel, answers);
    var body := Grow(n.body, inner, id + 1);
    ThenQuiet(body, 1, fuel, answers, r, inner);
    var handler := Steps(if n.binds then 2 else 0) + Grow(n.handler, inner, b) + Steps(1);
    var dead := [Step(False)] + [Choice(Opener(KIf, id), handler, false, [])];
    HandlerWalk(Opener(KIf, id), handler, fuel, r.answers);
    ThenWalk(body + Steps(1), dead, fuel, answers, r, Begin(r.answers), inner);
    ThenNothing(r);
    NoSteps();
    OptionWalk(n.always, inner, h, 0, 1, fuel, r.answers);
    var always := GrowOption(n.always, inner, h, [], Steps(1));
    ThenWalk(body + Steps(1) + dead, always, fuel, answers, r, FlowOption(true, n.always, fuel, r.answers), inner);
    assert body + Steps(1) + [Step(False)] + [Choice(Opener(KIf, id), handler, false, [])] == body + Steps(1) + dead;
  }

  // ---- loops ----

  lemma CaughtMatches(w: Walk, r: Run, inner: Option<nat>, id: nat)
    requires Matches(w, r, Some(id))
    ensures RoundMatches(w, Caught(r), inner, id)
  {
  }

  // A condition, the way out where it fails, and the rest of the round.
  lemma LeavesWalk(a: seq<Tree>, id: nat, b: seq<Tree>, fuel: nat, answers: seq<bool>, c: Run, q: Run, inner: Option<nat>)
    requires Matches(WalkAll(a, fuel, Fresh, answers), c, Some(id))
    requires Answer(c) ==> Matches(WalkAll(b, fuel, Fresh, Asked(c).answers), q, Some(id))
    ensures RoundMatches(WalkAll(a + UNLESS + Leave(id) + b, fuel, Fresh, answers),
                         if Asked(c).end.Normal? && !Answer(c) then Over(Asked(c)) else Caught(Then(Asked(c), q)), inner, id)
  {
    hide WalkAll;
    var exit := UNLESS + Leave(id);
    assert a + UNLESS + Leave(id) + b == a + (exit + b);
    WalkJoin(a, exit + b, fuel, Fresh, answers);
    if c.end.Normal? {
      ExitWalk(true, Opener(KBlock, id), fuel, c.answers);
      WalkJoin(exit, b, fuel, Fresh, c.answers);
      assert [] + q.trace == q.trace && c.trace + [] == c.trace;
    }
  }

  // Some work, the way out where the elements are used up, and the rest of the round.
  lemma HeadWalk(id: nat, b: seq<Tree>, fuel: nat, answers: seq<bool>)
    ensures var w := WalkAll(Steps(3) + Leave(id) + b, fuel, Fresh, answers);
      if answers == [] then w.way.Spent?
      else if answers[0] then w == Walk(Jump(Opener(KBlock, id)), Fresh, [], answers[1..])
      else w == WalkAll(b, fuel, Fresh, answers[1..])
  {
    hide WalkAll, Steps;
    StepsWalk(3, fuel, answers);
    ExitWalk(false, Opener(KBlock, id), fuel, answers);
    assert [] + [Exit(true, Opener(KBlock, id))] == Leave(id);
    WalkJoin(Leave(id), b, fuel, Fresh, answers);
    WalkJoin(Steps(3), Leave(id) + b, fuel, Fresh, answers);
    assert Steps(3) + Leave(id) + b == Steps(3) + (Leave(id) + b);
    if answers != [] {
      var x := WalkAll(b, fuel, Fresh, answers[1..]);
      assert [] + x.trace == x.trace;
    }
  }

  lemma {:induction false} RoundWalk(n: Node, inner: Option<nat>, id: nat, fuel: nat, answers: seq<bool>)
    requires IsLoop(n) && !Stray(n, inner.Some?) && Outside(inner, id)
    ensures RoundMatches(WalkAll(Body(n, inner, id), fuel, Fresh, answers), FlowRound(true, n, fuel, answers), inner, id)
    decreases fuel, n, 6
  {
    hide WalkAll, Body, FlowRound, Stray;
    match n
    case While(_, _) => WhileRound(n, inner, id, fuel, answers);
    case Infinite(_) => EndlessRound(n, inner, id, fuel, answers);
    case DoWhile(_, _) => DoWhileRound(n, inner, id, fuel, answers);
    case CFor(_, _, _, _) => CForRound(n, inner, id, fuel, answers);
    case For(_, _, _) => ForRound(n, inner, id, fuel, answers);
    case Comprehension(_, _, _, _) => ElementRound(n, inner, id, fuel, answers);
  }

  lemma {:induction false} WhileRound(n: Node, inner: Option<nat>, id: nat, fuel: nat, answers: seq<bool>)
    requires n.While? && !Stray(n, inner.Some?)
    ensures RoundMatches(WalkAll(Body(n, inner, id), fuel, Fresh, answers), FlowRound(true, n, fuel, answers), inner, id)
    decreases fuel, n, 5
  {
    hide WalkAll;
    var next := Shape(n.cond, Some(id), id + 1).next;
    Later(n.cond, Some(id), id + 1);
    SourceWalk(n.cond, Some(id), id + 1, fuel, answers);
    var c := Flow(true, n.cond, fuel, answers);
    SourceWalk(n.body, Some(id), next, fuel, Asked(c).answers);
    var q := Flow(true, n.body, fuel, Asked(c).answers);
    LeavesWalk(Grow(n.cond, Some(id), id + 1), id, Grow(n.body, Some(id), next), fuel, answers, c, q, inner);
  }

  lemma {:induction false} EndlessRound(n: Node, inner: Option<nat>, id: nat, fuel: nat, answers: seq<bool>)
    requires n.Infinite? && !Stray(n, inner.Some?)
    ensures RoundMatches(WalkAll(Body(n, inner, id), fuel, Fresh, answers), FlowRound(true, n, fuel, answers), inner, id)
    decreases fuel, n, 5
  {
    hide WalkAll, Steps;
    SourceWalk(n.body, Some(id), id + 1, fuel, answers);
    var r := Flow(true, n.body, fuel, answers);
    ThenQuiet(Grow(n.body, Some(id), id + 1), 1, fuel, answers, r, Some(id));
    CaughtMatches(WalkAll(Grow(n.body, Some(id), id + 1) + Steps(1), fuel, Fresh, answers), r, inner, id);
  }

  lemma {:induction false} DoWhileRound(n: Node, inner: Option<nat>, id: nat, fuel: nat, answers: seq<bool>)
    requires n.DoWhile? && !Stray(n, inner.Some?)
    ensures RoundMatches(WalkAll(Body(n, inner, id), fuel, Fresh, answers), FlowRound(true, n, fuel, answers), inner, id)
    decreases fuel, n, 5
  {
    hide WalkAll;
    var next := Shape(n.body, Some(id), id + 1).next;
    Later(n.body, Some(id), id + 1);
    SourceWalk(n.body, Some(id), id + 1, fuel, answers);
    var b := Flow(true, n.body, fuel, answers);
    SourceWalk(n.cond, Some(id), next, fuel, b.answers);
    var c := Then(b, Flow(true, n.cond, fuel, b.answers));
    var a := Grow(n.body, Some(id), id + 1) + Grow(n.cond, Some(id), next);
    ThenWalk(Grow(n.body, Some(id), id + 1), Grow(n.cond, Some(id), next), fuel, answers, b, Flow(true, n.cond, fuel, b.answers), Some(id));
    WalkNone(fuel, Fresh, Asked(c).answers);
    LeavesWalk(a, id, [], fuel, answers, c, Begin(Asked(c).answers), inner);
    ThenNothing(Asked(c));
    assert a + UNLESS + Leave(id) + [] == a + UNLESS + Leave(id);
  }

  lemma {:induction false} CForRound(n: Node, inner: Option<nat>, id: nat, fuel: nat, answers: seq<bool>)
    requires n.CFor? && !Stray(n, inner.Some?)
    ensures RoundMatches(WalkAll(Body(n, inner, id), fuel, Fresh, answers), FlowRound(true, n, fuel, answers), inner, id)
    decreases fuel, n, 5
  {
    hide WalkAll;
    var i := Shape(n.init, inner, id + 1).next;
    var next := Shape(n.cond, Some(id), i).next;
    var last := Shape(n.body, Some(id), next).next;
    Later(n.init, inner, id + 1);
    Later(n.cond, Some(id), i);
    Later(n.body, Some(id), next);
    SourceWalk(n.cond, Some(id), i, fuel, answers);
    var c := Flow(true, n.cond, fuel, answers);
    SourceWalk(n.body, Some(id), next, fuel, Asked(c).answers);
    var b := Flow(true, n.body, fuel, Asked(c).answers);
    SourceWalk(n.update, Some(id), last, fuel, b.answers);
    var u := Flow(true, n.update, fuel, b.answers);
    var cond, body, update := Grow(n.cond, Some(id), i), Grow(n.body, Some(id), next), Grow(n.update, Some(id), last);
    ThenWalk(body, update, fuel, Asked(c).answers, b, u, Some(id));
    LeavesWalk(cond, id, body + update, fuel, answers, c, Then(b, u), inner);
    assert cond + UNLESS + Leave(id) + (body + update) == cond + UNLESS + Leave(id) + body + update;
    ThenTwice(Asked(c), b, u);
  }

  lemma ThenTwice(a: Run, b: Run, c: Run)
    ensures Then(Then(a, b), c) == Then(a, Then(b, c))
    ensures Stepped(Then(a, b)) == if a.end.Normal? then Then(a, Stepped(b)) else a
  {
    assert a.trace + b.trace + c.trace == a.trace + (b.trace + c.trace);
    assert a.trace + b.trace + [Advanced] == a.trace + (b.trace + [Advanced]);
  }

  lemma {:induction false} ForRound(n: Node, inner: Option<nat>, id: nat, fuel: nat, answers: seq<bool>)
    requires n.For? && !Stray(n, inner.Some?)
    ensures RoundMatches(WalkAll(Body(n, inner, id), fuel, Fresh, answers), FlowRound(true, n, fuel, answers), inner, id)
    decreases fuel, n, 5
  {
    hide WalkAll, Steps, Count;
    var i := Shape(n.iter, inner, id + 1).next;
    Later(n.iter, inner, id + 1);
    var rest := Asked(Begin(answers)).answers;
    SourceWalk(n.body, Some(id), i, fuel, rest);
    var r := Flow(true, n.body, fuel, rest);
    var body := Grow(n.body, Some(id), i);
    QuietThen(3 + n.bind, body, fuel, rest, r, Some(id));
    ThenCount(Steps(3 + n.bind) + body, 3, fuel, rest, r, Some(id));
    var b := Steps(3 + n.bind) + body + Count(3);
    HeadWalk(id, b, fuel, answers);
    assert Steps(3) + Leave(id) + Steps(3 + n.bind) + body + Count(3) == Steps(3) + Leave(id) + b;
    ThenTwice(Asked(Begin(answers)), r, r);
    NothingThen(rest, Stepped(r));
    CaughtMatches(WalkAll(b, fuel, Fresh, rest), Stepped(r), inner, id);
  }

  // A filter that fails goes back to the head of the loop with the next element.
  lemma SkipWalk(id: nat, fuel: nat, answers: seq<bool>)
    ensures var w := WalkAll(SkipTree(id), fuel, Fresh, answers);
      if answers == [] then w.way.Spent?
      else if answers[0] then w == Walk(Fall, Fresh, [], answers[1..])
      else w == Walk(Jump(Opener(KLoop, id)), Fresh, [Advanced], answers[1..])
  {
    hide WalkAll, Count;
    var skip := Count(4) + [Exit(false, Opener(KLoop, id))];
    var choice := Choice(Opener(KIf, id + 1), skip, false, []);
    OneStep(Negate, fuel, Fresh, answers);
    WalkJoin(UNLESS, [choice], fuel, Fresh, answers);
    WalkSingle(choice, fuel, Negated, answers);
    if answers != [] {
      CountWalk(4, fuel, answers[1..]);
      WalkJoin(Count(4), [Exit(false, Opener(KLoop, id))], fuel, Fresh, answers[1..]);
      WalkSingle(Exit(false, Opener(KLoop, id)), fuel, Fresh, answers[1..]);
    }
  }

  // What follows a filter that holds, or a missing one.
  lemma {:induction false} FilterWalk(n: Option<Node>, inner: Option<nat>, next: nat, id: nat, fuel: nat, answers: seq<bool>)
    requires !StrayOption(n, inner.Some?) && Outside(inner, next)
    ensures var f := FlowOption(true, n, fuel, answers);
      var g := if n.Some? then Asked(f) else f;
      var w := WalkAll(GrowOption(n, inner, next, [], SkipTree(id)), fuel, Fresh, answers);
      if g.end.Normal? && n.Some? && !Answer(f) then w == Walk(Jump(Opener(KLoop, id)), Fresh, Stepped(g).trace, g.answers)
      else Matches(w, g, inner)
    decreases fuel, n, 10
  {
    hide WalkAll, SkipTree, Grow, Flow;
    if n.Some? {
      SourceWalk(n.value, inner, next, fuel, answers);
      var f := Flow(true, n.value, fuel, answers);
      WalkJoin(Grow(n.value, inner, next), SkipTree(id), fuel, Fresh, answers);
      if f.end.Normal? {
        SkipWalk(id, fuel, f.answers);
        assert f.trace + [] == f.trace;
      }
    } else {
      WalkNone(fuel, Fresh, answers);
    }
  }

  lemma {:induction false} ElementRound(n: Node, inner: Option<nat>, id: nat, fuel: nat, answers: seq<bool>)
    requires n.Comprehension? && !Stray(n, inner.Some?) && Outside(inner, id)
    ensures RoundMatches(WalkAll(Body(n, inner, id), fuel, Fresh, answers), FlowRound(true, n, fuel, answers), inner, id)
    decreases fuel, n, 5
  {
    hide WalkAll, Steps, Count, SkipTree, SkipMarks, GrowOption;
    var i := Shape(n.iter, inner, id + 2).next;
    var next := ShapeOption(n.filter, inner, i, [], SkipMarks(id)).next;
    Later(n.iter, inner, id + 2);
    OptionLater(n.filter, inner, i, [], SkipMarks(id));
    var rest := Asked(Begin(answers)).answers;
    FilterWalk(n.filter, inner, i, id, fuel, rest);
    var f := FlowOption(true, n.filter, fuel, rest);
    var g := if n.filter.Some? then Asked(f) else f;
    SourceWalk(n.element, inner, next, fuel, g.answers);
    var e := Flow(true, n.element, fuel, g.answers);
    var filter, element := GrowOption(n.filter, inner, i, [], SkipTree(id)), Grow(n.element, inner, next);
    QuietThen(1, element, fuel, g.answers, e, inner);
    ThenCount(Steps(1) + element, 6, fuel, g.answers, e, inner);
    var last := Steps(1) + element + Count(6);
    StepsWalk(4 + n.bind, fuel, rest);
    WalkJoin(Steps(4 + n.bind), filter + last, fuel, Fresh, rest);
    WalkJoin(filter, last, fuel, Fresh, rest);
    var b := Steps(4 + n.bind) + (filter + last);
    HeadWalk(id, b, fuel, answers);
    assert Steps(3) + Leave(id) + Steps(4 + n.bind) + filter + Steps(1) + element + Count(6) == Steps(3) + Leave(id) + b;
    ElementFlow(n, fuel, answers);
    ElementEnd(WalkAll(filter, fuel, Fresh, rest), WalkAll(last, fuel, Fresh, g.answers), WalkAll(b, fuel, Fresh, rest), f, g, e, n.filter.Some?, inner, id);
  }

  function ElementOutcome(filtered: bool, f: Run, g: Run, e: Run): Round {
    if g.end.Normal? && filtered && !Answer(f) then Again(Stepped(g))
    else
      var all := Then(g, e);
      if all.end.Normal? then Again(Stepped(all)) else Over(all)
  }

  lemma ElementFlow(n: Node, fuel: nat, answers: seq<bool>)
    requires n.Comprehension?
    ensures var start := Begin(answers);
      var rest := Asked(start).answers;
      var f := FlowOption(true, n.filter, fuel, rest);
      var g := if n.filter.Some? then Asked(f) else f;
      FlowRound(true, n, fuel, answers) ==
        if Answer(start) || answers == [] then Over(Asked(start))
        else ElementOutcome(n.filter.Some?, f, g, Flow(true, n.element, fuel, g.answers))
  {
    hide Flow, FlowOption;
    var start := Begin(answers);
    if answers != [] {
      var rest := answers[1..];
      var f := FlowOption(true, n.filter, fuel, rest);
      NothingThen(rest, f);
    }
  }

  lemma ElementEnd(x: Walk, y: Walk, w: Walk, f: Run, g: Run, e: Run, filtered: bool, inner: Option<nat>, id: nat)
    requires if g.end.Normal? && filtered && !Answer(f) then x == Walk(Jump(Opener(KLoop, id)), Fresh, Stepped(g).trace, g.answers)
             else Matches(x, g, inner)
    requires Matches(y, Stepped(e), inner)
    requires w == Also(Walk(Fall, Fresh, [], []), if x.way.Fall? then Also(x, y) else x)
    ensures RoundMatches(w, ElementOutcome(filtered, f, g, e), inner, id)
  {
    ThenTwice(g, e, e);
    var z := if x.way.Fall? then Also(x, y) else x;
    assert [] + z.trace == z.trace;
  }

  // The rounds of a loop, from its head on.
  lemma {:induction false} RoundsWalk(n: Node, inner: Option<nat>, id: nat, fuel: nat, answers: seq<bool>)
    requires IsLoop(n) && !Stray(n, inner.Some?) && Outside(inner, id)
    ensures var back := [Exit(false, Opener(KLoop, id))];
      RoundMatches(WalkOne(Inside(Opener(KLoop, id), Body(n, inner, id) + back), fuel, Fresh, answers),
                   Over(FlowLoop(true, n, fuel, answers)), inner, id)
    decreases fuel, n, 7
  {
    hide WalkAll, Body, FlowRound, IsLoop, Stray;
    if fuel > 0 {
      var back := [Exit(false, Opener(KLoop, id))];
      RoundWalk(n, inner, id, fuel, answers);
      var w, round := WalkAll(Body(n, inner, id), fuel, Fresh, answers), FlowRound(true, n, fuel, answers);
      WalkJoin(Body(n, inner, id), back, fuel, Fresh, answers);
      WalkSingle(Exit(false, Opener(KLoop, id)), fuel, w.test, w.answers);
      if round.Again? {
        assert w.trace + [] == w.trace;
        RoundsWalk(n, inner, id, fuel - 1, w.answers);
      }
    }
  }

  lemma {:induction false} AroundWalk(n: Node, inner: Option<nat>, id: nat, fuel: nat, answers: seq<bool>)
    requires IsLoop(n) && !Stray(n, inner.Some?) && Outside(inner, id)
    ensures Matches(WalkAll(Rounds(id, Body(n, inner, id)), fuel, Fresh, answers), FlowLoop(true, n, fuel, answers), inner)
    decreases fuel, n, 8
  {
    hide WalkAll, WalkOne, Body, FlowLoop, IsLoop, Stray;
    RoundsWalk(n, inner, id, fuel, answers);
    var loop := Inside(Opener(KLoop, id), Body(n, inner, id) + [Exit(false, Opener(KLoop, id))]);
    WalkSingle(loop, fuel, Fresh, answers);
    BlockWalk(Opener(KBlock, id), [loop], fuel, answers);
  }

  lemma {:induction false} LoopWalk(n: Node, inner: Option<nat>, id: nat, fuel: nat, answers: seq<bool>)
    requires (n.While? || n.DoWhile?) && !Stray(n, inner.Some?) && Outside(inner, id)
    ensures Matches(WalkAll(Grow(n, inner, id), fuel, Fresh, answers), Flow(true, n, fuel, answers), inner)
    decreases fuel, n, 9
  {
    hide WalkAll, Rounds, FlowLoop, Stray;
    AroundWalk(n, inner, id, fuel, answers);
  }

  lemma {:induction false} EndlessWalk(n: Node, inner: Option<nat>, id: nat, fuel: nat, answers: seq<bool>)
    requires n.Infinite? && !Stray(n, inner.Some?) && Outside(inner, id)
    ensures Matches(WalkAll(Grow(n, inner, id), fuel, Fresh, answers), Flow(true, n, fuel, answers), inner)
    decreases fuel, n, 9
  {
    hide WalkAll, Rounds, FlowLoop, Stray, Steps;
    AroundWalk(n, inner, id, fuel, answers);
    ThenQuiet(Rounds(id, Body(n, inner, id)), 1, fuel, answers, FlowLoop(true, n, fuel, answers), inner);
  }

  lemma {:induction false} CForWalk(n: Node, inner: Option<nat>, id: nat, fuel: nat, answers: seq<bool>)
    requires n.CFor? && !Stray(n, inner.Some?) && Outside(inner, id)
    ensures Matches(WalkAll(Grow(n, inner, id), fuel, Fresh, answers), Flow(true, n, fuel, answers), inner)
    decreases fuel, n, 9
  {
    hide WalkAll, Rounds, FlowLoop;
    SourceWalk(n.init, inner, id + 1, fuel, answers);
    var i := Flow(true, n.init, fuel, answers);
    AroundWalk(n, inner, id, fuel, i.answers);
    ThenWalk(Grow(n.init, inner, id + 1), Rounds(id, Body(n, inner, id)), fuel, answers, i, FlowLoop(true, n, fuel, i.answers), inner);
  }

  lemma {:induction false} ForWalk(n: Node, inner: Option<nat>, id: nat, fuel: nat, answers: seq<bool>)
    requires n.For? && !Stray(n, inner.Some?) && Outside(inner, id)
    ensures Matches(WalkAll(Grow(n, inner, id), fuel, Fresh, answers), Flow(true, n, fuel, answers), inner)
    decreases fuel, n, 9
  {
    hide WalkAll, Rounds, FlowLoop, Steps, Count;
    SourceWalk(n.iter, inner, id + 1, fuel, answers);
    var i := Flow(true, n.iter, fuel, answers);
    ThenQuiet(Grow(n.iter, inner, id + 1), 6, fuel, answers, i, inner);
    AroundWalk(n, inner, id, fuel, i.answers);
    ThenWalk(Grow(n.iter, inner, id + 1) + Steps(6), Rounds(id, Body(n, inner, id)), fuel, answers, i, FlowLoop(true, n, fuel, i.answers), inner);
  }

  lemma {:induction false} ComprehensionWalk(n: Node, inner: Option<nat>, id: nat, fuel: nat, answers: seq<bool>)
    requires n.Comprehension? && !Stray(n, inner.Some?) && Outside(inner, id)
    ensures Matches(WalkAll(Grow(n, inner, id), fuel, Fresh, answers), Flow(true, n, fuel, answers), inner)
    decreases fuel, n, 9
  {
    hide WalkAll, Rounds, FlowLoop, Steps, Count, SkipTree, SkipMarks, Grow;
    ComprehensionGrow(n, inner, id);
    SourceWalk(n.iter, inner, id + 2, fuel, answers);
    var i := Flow(true, n.iter, fuel, answers);
    var iter := Grow(n.iter, inner, id + 2);
    QuietThen(2, iter, fuel, answers, i, inner);
    ThenQuiet(Steps(2) + iter, 8, fuel, answers, i, inner);
    AroundWalk(n, inner, id, fuel, i.answers);
    var rounds, loop := Rounds(id, Body(n, inner, id)), FlowLoop(true, n, fuel, i.answers);
    ThenWalk(Steps(2) + iter + Steps(8), rounds, fuel, answers, i, loop, inner);
    ThenQuiet(Steps(2) + iter + Steps(8) + rounds, 1, fuel, answers, Then(i, loop), inner);
  }

  // ---- match ----

  lemma {:induction false} MatchWalk(n: Node, inner: Option<nat>, id: nat, fuel: nat, answers: seq<bool>)
    requires n.Match? && !Stray(n, inner.Some?) && Outside(inner, id)
    ensures Matches(WalkAll(Grow(n, inner, id), fuel, Fresh, answers), Flow(true, n, fuel, answers), inner)
    decreases fuel, n, 8
  {
    hide WalkAll, Steps;
    var v := Shape(n.value, inner, id).next;
    Later(n.value, inner, id);
    SourceWalk(n.value, inner, id, fuel, answers);
    var r := Flow(true, n.value, fuel, answers);
    ThenQuiet(Grow(n.value, inner, id), 3, fuel, answers, r, inner);
    ArmsWalk(n.arms, inner, v, fuel, r.answers);
    ThenWalk(Grow(n.value, inner, id) + Steps(3), GrowArms(n.arms, inner, v), fuel, answers, r, FlowArms(true, n.arms, fuel, r.answers), inner);
  }

  lemma {:induction false} ArmsWalk(arms: seq<Arm>, inner: Option<nat>, id: nat, fuel: nat, answers: seq<bool>)
    requires !StrayArms(arms, inner.Some?) && Outside(inner, id)
    ensures Matches(WalkAll(GrowArms(arms, inner, id), fuel, Fresh, answers), FlowArms(true, arms, fuel, answers), inner)
    decreases fuel, arms, 0
  {
    hide WalkAll, Steps, GrowArm, GrowBody, FlowBody, FlowGuard, ShapeArm, StrayArm;
    if arms == [] {
      WalkNone(fuel, Fresh, answers);
    } else {
      var a, last := arms[0], |arms| == 1;
      if CatchesAll(a) {
        BodyWalk(a, inner, id, fuel, answers);
        QuietThen(a.ops, GrowBody(a, inner, id), fuel, answers, FlowBody(true, a, fuel, answers), inner);
        CatchFlow(arms, fuel, answers);
      } else {
        var next := ShapeArm(a, last, inner, id).next;
        var rest := Missing(last) + GrowArms(arms[1..], inner, next);
        ArmLater(a, last, inner, id);
        forall left: seq<bool>
          ensures Matches(WalkAll(rest, fuel, Fresh, left), FlowArms(true, arms[1..], fuel, left), inner)
        {
          ArmsWalk(arms[1..], inner, next, fuel, left);
          QuietThen(if last then 1 else 0, GrowArms(arms[1..], inner, next), fuel, left, FlowArms(true, arms[1..], fuel, left), inner);
        }
        ArmWalk(arms, last, inner, id, rest, fuel, answers);
      }
    }
  }

  lemma NoGuard(a: Arm, fuel: nat, answers: seq<bool>)
    requires a.guard.None?
    ensures FlowGuard(true, a, fuel, answers) == Begin(answers)
  {
  }

  lemma CatchFlow(arms: seq<Arm>, fuel: nat, answers: seq<bool>)
    requires arms != [] && CatchesAll(arms[0])
    ensures FlowArms(true, arms, fuel, answers) == FlowBody(true, arms[0], fuel, answers)
  {
    hide FlowBody;
    NoGuard(arms[0], fuel, answers);
    NothingThen(answers, Begin(answers));
    NothingThen(answers, FlowBody(true, arms[0], fuel, answers));
  }

  lemma {:induction false} BodyWalk(a: Arm, inner: Option<nat>, id: nat, fuel: nat, answers: seq<bool>)
    requires !StrayArm(a, inner.Some?) && Outside(inner, id)
    ensures Matches(WalkAll(GrowBody(a, inner, id), fuel, Fresh, answers), FlowBody(true, a, fuel, answers), inner)
    decreases fuel, a, 11
  {
    hide WalkAll;
    OptionLater(a.guard, inner, id + 2, [], []);
    SourceWalk(a.body, inner, ShapeOption(a.guard, inner, id + 2, [], []).next, fuel, answers);
  }

  lemma {:induction false} GuardWalk(a: Arm, inner: Option<nat>, id: nat, fuel: nat, answers: seq<bool>)
    requires !StrayArm(a, inner.Some?) && Outside(inner, id)
    ensures Matches(WalkAll(GrowGuard(a, inner, id), fuel, Fresh, answers), FlowGuard(true, a, fuel, answers), inner)
    decreases fuel, a, 11
  {
    hide WalkAll;
    NoSteps();
    OptionWalk(a.guard, inner, id + 2, 0, 0, fuel, answers);
  }

  // An arm that may fail, with the other arms in its else part.
  lemma {:induction false} ArmWalk(arms: seq<Arm>, last: bool, inner: Option<nat>, id: nat, rest: seq<Tree>, fuel: nat, answers: seq<bool>)
    requires arms != [] && !CatchesAll(arms[0]) && !StrayArm(arms[0], inner.Some?) && Outside(inner, id)
    requires forall left: seq<bool> :: Matches(WalkAll(rest, fuel, Fresh, left), FlowArms(true, arms[1..], fuel, left), inner)
    ensures Matches(WalkAll(GrowArm(arms[0], last, inner, id, rest), fuel, Fresh, answers), FlowArms(true, arms, fuel, answers), inner)
    decreases fuel, arms[0], 13
  {
    hide WalkAll, Steps, GrowBody, GrowGuard, FlowBody, FlowGuard, FlowArms, StrayArm;
    var a := arms[0];
    if a.catchAll {
      GuardedWalk(arms, inner, id, rest, fuel, answers);
      QuietThen(a.ops, GrowGuard(a, inner, id) + [Choice(Opener(KIf, id), GrowBody(a, inner, id), true, rest)], fuel, answers,
                FlowArms(true, arms, fuel, answers), inner);
    } else if a.guard.None? {
      TestedWalk(arms, inner, id, rest, fuel, answers);
      QuietThen(a.ops, [Choice(Opener(KIf, id), GrowBody(a, inner, id), true, rest)], fuel, answers, FlowArms(true, arms, fuel, answers), inner);
    } else {
      TwiceWalk(arms, last, inner, id, rest, fuel, answers);
      var both := GrowGuard(a, inner, id) + [Choice(Opener(KIf, id + 1), GrowBody(a, inner, id), true, Missing(last))];
      QuietThen(a.ops, [Choice(Opener(KIf, id), both, true, rest)], fuel, answers, FlowArms(true, arms, fuel, answers), inner);
    }
  }

  lemma {:induction false} GuardedWalk(arms: seq<Arm>, inner: Option<nat>, id: nat, rest: seq<Tree>, fuel: nat, answers: seq<bool>)
    requires arms != [] && arms[0].catchAll && arms[0].guard.Some? && !StrayArm(arms[0], inner.Some?) && Outside(inner, id)
    requires forall left: seq<bool> :: Matches(WalkAll(rest, fuel, Fresh, left), FlowArms(true, arms[1..], fuel, left), inner)
    ensures var a := arms[0];
      Matches(WalkAll(GrowGuard(a, inner, id) + [Choice(Opener(KIf, id), GrowBody(a, inner, id), true, rest)], fuel, Fresh, answers),
              FlowArms(true, arms, fuel, answers), inner)
    decreases fuel, arms[0], 12
  {
    hide WalkAll, GrowBody, GrowGuard, FlowBody, FlowGuard, StrayArm, Flow;
    var a := arms[0];
    GuardWalk(a, inner, id, fuel, answers);
    var g := FlowGuard(true, a, fuel, answers);
    var left := Asked(g).answers;
    BodyWalk(a, inner, id, fuel, left);
    var q := if Answer(g) then FlowBody(true, a, fuel, left) else FlowArms(true, arms[1..], fuel, left);
    NothingThen(answers, g);
    BothWalk(GrowGuard(a, inner, id), Opener(KIf, id), GrowBody(a, inner, id), rest, fuel, answers, g, q, inner);
  }

  lemma {:induction false} TestedWalk(arms: seq<Arm>, inner: Option<nat>, id: nat, rest: seq<Tree>, fuel: nat, answers: seq<bool>)
    requires arms != [] && !arms[0].catchAll && arms[0].guard.None? && !StrayArm(arms[0], inner.Some?) && Outside(inner, id)
    requires forall left: seq<bool> :: Matches(WalkAll(rest, fuel, Fresh, left), FlowArms(true, arms[1..], fuel, left), inner)
    ensures Matches(WalkAll([Choice(Opener(KIf, id), GrowBody(arms[0], inner, id), true, rest)], fuel, Fresh, answers),
                    FlowArms(true, arms, fuel, answers), inner)
    decreases fuel, arms[0], 12
  {
    hide WalkAll, GrowBody, FlowBody, StrayArm, Flow;
    var a, start := arms[0], Begin(answers);
    var left := Asked(start).answers;
    BodyWalk(a, inner, id, fuel, left);
    var body := FlowBody(true, a, fuel, left);
    NoGuard(a, fuel, left);
    var q := if Answer(start) then body else FlowArms(true, arms[1..], fuel, left);
    ThenNothing(Asked(start));
    ChoiceWalk(Opener(KIf, id), GrowBody(a, inner, id), true, rest, fuel, answers, q, inner);
  }

  // A test and a guard: where the guard fails the match is over.
  lemma {:induction false} TwiceWalk(arms: seq<Arm>, last: bool, inner: Option<nat>, id: nat, rest: seq<Tree>, fuel: nat, answers: seq<bool>)
    requires arms != [] && !arms[0].catchAll && arms[0].guard.Some? && !StrayArm(arms[0], inner.Some?) && Outside(inner, id)
    requires forall left: seq<bool> :: Matches(WalkAll(rest, fuel, Fresh, left), FlowArms(true, arms[1..], fuel, left), inner)
    ensures var a := arms[0];
      var both := GrowGuard(a, inner, id) + [Choice(Opener(KIf, id + 1), GrowBody(a, inner, id), true, Missing(last))];
      Matches(WalkAll([Choice(Opener(KIf, id), both, true, rest)], fuel, Fresh, answers), FlowArms(true, arms, fuel, answers), inner)
    decreases fuel, arms[0], 12
  {
    hide WalkAll, GrowBody, GrowGuard, FlowBody, FlowGuard, StrayArm, Flow, Steps;
    var a, start := arms[0], Begin(answers);
    var left := Asked(start).answers;
    GuardWalk(a, inner, id, fuel, left);
    var g := FlowGuard(true, a, fuel, left);
    var more := Asked(g).answers;
    BodyWalk(a, inner, id, fuel, more);
    StepsWalk(if last then 1 else 0, fuel, more);
    var body := if Answer(g) then FlowBody(true, a, fuel, more) else Begin(more);
    BothWalk(GrowGuard(a, inner, id), Opener(KIf, id + 1), GrowBody(a, inner, id), Missing(last), fuel, left, g, body, inner);
    var both := GrowGuard(a, inner, id) + [Choice(Opener(KIf, id + 1), GrowBody(a, inner, id), true, Missing(last))];
    var q := if Answer(start) then Then(Asked(g), body) else FlowArms(true, arms[1..], fuel, left);
    ThenNothing(Asked(g));
    TwiceFlow(arms, fuel, answers);
    ChoiceWalk(Opener(KIf, id), both, true, rest, fuel, answers, q, inner);
  }

  lemma TwiceFlow(arms: seq<Arm>, fuel: nat, answers: seq<bool>)
    requires arms != [] && !arms[0].catchAll && arms[0].guard.Some?
    ensures var a, start := arms[0], Begin(answers);
      var left := Asked(start).answers;
      var g := FlowGuard(true, a, fuel, left);
      var more := Asked(g).answers;
      FlowArms(true, arms, fuel, answers) ==
        Then(Asked(start), if !Answer(start) then FlowArms(true, arms[1..], fuel, left)
                           else Then(Asked(g), if Answer(g) then FlowBody(true, a, fuel, more) else Begin(more)))
  {
    hide FlowBody, FlowGuard, Flow;
    var a, start := arms[0], Begin(answers);
    if answers != [] && answers[0] {
      var left := answers[1..];
      var g := FlowGuard(true, a, fuel, left);
      NothingThen(left, g);
      ThenNothing(Asked(g));
      var more := Asked(g).answers;
      NothingThen(left, Then(Asked(g), FlowBody(true, a, fuel, more)));
      NothingThen(left, Asked(g));
    }
  }
}
