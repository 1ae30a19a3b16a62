// Running a tree of constructs performs the acts of the program in the order of compiled code.
module IrTreeRun {
  import opened Wrappers
  import opened IrShape
  import opened IrFlow
  import opened IrTree

  // What the condition on top of the stack is: the next answer, its negation, or false.
  datatype Test = Fresh | Negated | Off

  datatype Way = Fall | Jump(target: Goal) | Spent

  datatype Walk = Walk(way: Way, test: Test, trace: seq<Event>, answers: seq<bool>)

  // The truth of the condition, and the answers that are left.
  function Taken(test: Test, answers: seq<bool>): Option<(bool, seq<bool>)> {
    match test
    case Off => Some((false, answers))
    case Fresh => if answers == [] then None else Some((answers[0], answers[1..]))
    case Negated => if answers == [] then None else Some((!answers[0], answers[1..]))
  }

  function After(w: Work): Test {
    match w
    case Negate => Negated
    case False => Off
    case _ => Fresh
  }

  function Shown(w: Work): seq<Event> {
    match w
    case Act(name) => [Did(name)]
    case Advance => [Advanced]
    case _ => []
  }

  function Also(a: Walk, b: Walk): Walk {
    b.(trace := a.trace + b.trace)
  }

  function WalkAll(ts: seq<Tree>, fuel: nat, test: Test, answers: seq<bool>): Walk
    decreases fuel, ts, 0
  {
    if ts == [] then Walk(Fall, test, [], answers)
    else
      var a := WalkOne(ts[0], fuel, test, answers);
      if a.way.Fall? then Also(a, WalkAll(ts[1..], fuel, a.test, a.answers)) else a
  }

  function WalkOne(t: Tree, fuel: nat, test: Test, answers: seq<bool>): Walk
    decreases fuel, t, 1
  {
    match t
    case Step(w) => Walk(Fall, After(w), Shown(w), answers)
    case Exit(conditional, o) =>
      if !conditional then Walk(Jump(o), Fresh, [], answers)
      else
        (match Taken(test, answers)
         case None => Walk(Spent, Fresh, [], answers)
         case Some((b, rest)) => Walk(if b then Jump(o) else Fall, Fresh, [], rest))
    case Inside(o, body) =>
      if o.kind.KLoop? && fuel == 0 then Walk(Spent, Fresh, [], answers)
      else
        var b := WalkAll(body, fuel, Fresh, answers);
        if b.way != Jump(o) then Closed(b)
        else if o.kind.KLoop? then Also(b, WalkOne(t, fuel - 1, Fresh, b.answers))
        else Closed(b).(way := Fall)
    case Choice(_, thn, turns, els) =>
      match Taken(test, answers)
      case None => Walk(Spent, Fresh, [], answers)
      case Some((b, rest)) =>
        if b then Closed(WalkAll(thn, fuel, Fresh, rest))
        else if turns then Closed(WalkAll(els, fuel, Fresh, rest))
        else Walk(Fall, Fresh, [], rest)
  }

  // Behind the end of a construct no condition is pending.
  function Closed(a: Walk): Walk {
    a.(test := Fresh)
  }

  // ---- what a walk has in common with a run of the program ----

  // A jump of the program goes to the loop `inner`.
  predicate Matches(w: Walk, r: Run, inner: Option<nat>) {
    match r.end
    case Used => w.way.Spent?
    case Normal => w == Walk(Fall, Fresh, r.trace, r.answers)
    case Broke => inner.Some? && w == Walk(Jump(Opener(KBlock, inner.value)), Fresh, r.trace, r.answers)
    case Continued => inner.Some? && w == Walk(Jump(Opener(KLoop, inner.value)), Fresh, r.trace, r.answers)
  }

  lemma WalkNone(fuel: nat, test: Test, answers: seq<bool>)
    ensures WalkAll([], fuel, test, answers) == Walk(Fall, test, [], answers)
  {
  }

  lemma WalkSingle(t: Tree, fuel: nat, test: Test, answers: seq<bool>)
    ensures WalkAll([t], fuel, test, answers) == WalkOne(t, fuel, test, answers)
  {
    hide WalkOne;
    assert [t][1..] == [];
    var a := WalkOne(t, fuel, test, answers);
    assert a.trace + [] == a.trace;
  }

  lemma {:induction false} WalkJoin(a: seq<Tree>, b: seq<Tree>, fuel: nat, test: Test, answers: seq<bool>)
    ensures var x := WalkAll(a, fuel, test, answers);
      WalkAll(a + b, fuel, test, answers) == if x.way.Fall? then Also(x, WalkAll(b, fuel, x.test, x.answers)) else x
    decreases |a|
  {
    hide WalkOne;
    if a == [] {
      assert a + b == b;
      var y := WalkAll(b, fuel, test, answers);
      assert [] + y.trace == y.trace;
    } else {
      assert (a + b)[0] == a[0] && (a + b)[1..] == a[1..] + b;
      var x := WalkOne(a[0], fuel, test, answers);
      if x.way.Fall? {
        WalkJoin(a[1..], b, fuel, x.test, x.answers);
        var y := WalkAll(a[1..], fuel, x.test, x.answers);
        var z := WalkAll(b, fuel, y.test, y.answers);
        assert x.trace + (y.trace + z.trace) == x.trace + y.trace + z.trace;
      }
    }
  }

  lemma {:induction false} StepsWalk(n: nat, fuel: nat, answers: seq<bool>)
    ensures Matches(WalkAll(Steps(n), fuel, Fresh, answers), Begin(answers), None)
  {
    hide WalkAll, WalkOne;
    if n == 0 {
      WalkNone(fuel, Fresh, answers);
    } else {
      StepsWalk(n - 1, fuel, answers);
      WalkJoin(Steps(n - 1), [Step(Quiet)], fuel, Fresh, answers);
      OneStep(Quiet, fuel, Fresh, answers);
    }
  }

  lemma OneStep(w: Work, fuel: nat, test: Test, answers: seq<bool>)
    ensures WalkAll([Step(w)], fuel, test, answers) == Walk(Fall, After(w), Shown(w), answers)
  {
    hide WalkAll;
    WalkSingle(Step(w), fuel, test, answers);
  }

  lemma {:induction false} ActsWalk(acts: seq<nat>, fuel: nat, answers: seq<bool>)
    ensures WalkAll(ActSteps(acts), fuel, Fresh, answers) == Walk(Fall, Fresh, Dids(acts), answers)
  {
    hide WalkAll, WalkOne;
    if acts == [] {
      WalkNone(fuel, Fresh, answers);
    } else {
      var n := |acts| - 1;
      ActsWalk(acts[..n], fuel, answers);
      WalkJoin(ActSteps(acts[..n]), [Step(Act(acts[n]))], fuel, Fresh, answers);
      OneStep(Act(acts[n]), fuel, Fresh, answers);
    }
  }

  lemma CountWalk(n: nat, fuel: nat, answers: seq<bool>)
    ensures WalkAll(Count(n), fuel, Fresh, answers) == Walk(Fall, Fresh, [Advanced], answers)
  {
    hide WalkAll, WalkOne;
    StepsWalk(n, fuel, answers);
    WalkJoin(Steps(n), [Step(Advance)], fuel, Fresh, answers);
    OneStep(Advance, fuel, Fresh, answers);
    assert [] + [Advanced] == [Advanced];
  }

  // ---- sequences ----

  lemma ThenWalk(a: seq<Tree>, b: seq<Tree>, fuel: nat, answers: seq<bool>, r: Run, q: Run, inner: Option<nat>)
    requires Matches(WalkAll(a, fuel, Fresh, answers), r, inner)
    requires r.end.Normal? ==> Matches(WalkAll(b, fuel, Fresh, r.answers), q, inner)
    ensures Matches(WalkAll(a + b, fuel, Fresh, answers), Then(r, q), inner)
  {
    hide WalkAll;
    WalkJoin(a, b, fuel, Fresh, answers);
  }

  lemma ThenNothing(r: Run)
    ensures Then(r, Begin(r.answers)) == r
  {
    assert r.trace + [] == r.trace;
  }

  lemma NothingThen(answers: seq<bool>, q: Run)
    ensures Then(Begin(answers), q) == q
  {
    assert [] + q.trace == q.trace;
  }

  lemma ThenQuiet(a: seq<Tree>, n: nat, fuel: nat, answers: seq<bool>, r: Run, inner: Option<nat>)
    requires Matches(WalkAll(a, fuel, Fresh, answers), r, inner)
    ensures Matches(WalkAll(a + Steps(n), fuel, Fresh, answers), r, inner)
  {
    hide WalkAll, Steps;
    StepsWalk(n, fuel, r.answers);
    ThenWalk(a, Steps(n), fuel, answers, r, Begin(r.answers), inner);
    ThenNothing(r);
  }

  lemma QuietThen(n: nat, b: seq<Tree>, fuel: nat, answers: seq<bool>, q: Run, inner: Option<nat>)
    requires Matches(WalkAll(b, fuel, Fresh, answers), q, inner)
    ensures Matches(WalkAll(Steps(n) + b, fuel, Fresh, answers), q, inner)
  {
    hide WalkAll, Steps;
    StepsWalk(n, fuel, answers);
    ThenWalk(Steps(n), b, fuel, answers, Begin(answers), q, inner);
    NothingThen(answers, q);
  }

  // Then the step to the next element.
  lemma ThenCount(a: seq<Tree>, n: nat, fuel: nat, answers: seq<bool>, r: Run, inner: Option<nat>)
    requires Matches(WalkAll(a, fuel, Fresh, answers), r, inner)
    ensures Matches(WalkAll(a + Count(n), fuel, Fresh, answers), Stepped(r), inner)
  {
    hide WalkAll, Count;
    CountWalk(n, fuel, r.answers);
    ThenWalk(a, Count(n), fuel, answers, r, Run(Normal, [Advanced], r.answers), inner);
  }

  // ---- tests ----

  // `r`, a test, and `q` after it.
  lemma AskedThen(r: Run, q: Run)
    ensures Then(Asked(r), q) == Then(r, Then(Asked(Begin(r.answers)), q))
    ensures r.end.Normal? ==> Answer(r) == Answer(Begin(r.answers)) && Asked(r).answers == Asked(Begin(r.answers)).answers
    ensures Asked(r) == Then(r, Asked(Begin(r.answers)))
  {
    assert r.trace + ([] + q.trace) == r.trace + q.trace;
    assert r.trace + [] == r.trace;
  }

  lemma ChoiceWalk(o: Tested, thn: seq<Tree>, turns: bool, els: seq<Tree>, fuel: nat, answers: seq<bool>, q: Run, inner: Option<nat>)
    requires var start := Begin(answers);
      Asked(start).end.Normal? ==>
        if Answer(start) then Matches(WalkAll(thn, fuel, Fresh, Asked(start).answers), q, inner)
        else if turns then Matches(WalkAll(els, fuel, Fresh, Asked(start).answers), q, inner)
        else q == Begin(Asked(start).answers)
    ensures Matches(WalkAll([Choice(o, thn, turns, els)], fuel, Fresh, answers), Then(Asked(Begin(answers)), q), inner)
  {
    hide WalkAll;
    WalkSingle(Choice(o, thn, turns, els), fuel, Fresh, answers);
    assert [] + q.trace == q.trace;
  }

  // A conditional branch on the next answer, or on its negation.
  lemma ExitWalk(negated: bool, o: Goal, fuel: nat, answers: seq<bool>)
    ensures var not := if negated then UNLESS else [];
      WalkAll(not + [Exit(true, o)], fuel, Fresh, answers) ==
        if answers == [] then Walk(Spent, Fresh, [], answers)
        else Walk(if answers[0] != negated then Jump(o) else Fall, Fresh, [], answers[1..])
  {
    hide WalkAll;
    WalkSingle(Exit(true, o), fuel, if negated then Negated else Fresh, answers);
    if negated {
      WalkJoin(UNLESS, [Exit(true, o)], fuel, Fresh, answers);
      OneStep(Negate, fuel, Fresh, answers);
      var x := WalkOne(Exit(true, o), fuel, Negated, answers);
      assert [] + x.trace == x.trace;
    } else {
      assert [] + [Exit(true, o)] == [Exit(true, o)];
    }
  }

  // A block catches the jumps to it and lets others pass.
  lemma BlockWalk(o: Goal, body: seq<Tree>, fuel: nat, answers: seq<bool>)
    requires !o.kind.KLoop?
    ensures var b := WalkAll(body, fuel, Fresh, answers);
      WalkAll([Inside(o, body)], fuel, Fresh, answers) == if b.way == Jump(o) then Closed(b).(way := Fall) else Closed(b)
  {
    hide WalkAll;
    WalkSingle(Inside(o, body), fuel, Fresh, answers);
  }
}
