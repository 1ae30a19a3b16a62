// The places where compiled code orders a program's acts otherwise than the interpreter: exactly when it does, and one
// program whose compiled form never goes on to the next element.
module IrFlowLimits {
  import opened Wrappers
  import opened IrShape
  import opened IrFlow
  import opened IrFlowMachine
  import opened IrFlowTheorem
  import opened IrLabels

  // ---- one round, one match, one try ----

  // With an element left, the rounds of a for loop are alike if and only if the body does not end in a continue.
  lemma ForRoundAlike(n: Node, fuel: nat, answers: seq<bool>)
    requires n.For? && answers != [] && !answers[0]
    requires Flow(true, n.body, fuel, answers[1..]) == Flow(false, n.body, fuel, answers[1..])
    ensures FlowRound(true, n, fuel, answers) == FlowRound(false, n, fuel, answers) <==> !Flow(true, n.body, fuel, answers[1..]).end.Continued?
  {
    hide Flow;
    var b := Flow(true, n.body, fuel, answers[1..]);
    assert [] + b.trace == b.trace;
    assert |b.trace + [Advanced]| != |b.trace|;
  }

  // After a condition that holds, the rounds of a C-style loop are alike if and only if the body does not end in a
  // continue, or the update that it would skip does nothing.
  lemma CForRoundAlike(n: Node, fuel: nat, answers: seq<bool>)
    requires n.CFor?
    requires Flow(true, n.cond, fuel, answers) == Flow(false, n.cond, fuel, answers)
    requires Answer(Flow(true, n.cond, fuel, answers))
    requires var t := Asked(Flow(true, n.cond, fuel, answers));
      Flow(true, n.body, fuel, t.answers) == Flow(false, n.body, fuel, t.answers)
    requires var t := Asked(Flow(true, n.cond, fuel, answers));
      var left := Flow(true, n.body, fuel, t.answers).answers;
      Flow(true, n.update, fuel, left) == Flow(false, n.update, fuel, left) && !Jumped(Flow(true, n.update, fuel, left))
    ensures var t := Asked(Flow(true, n.cond, fuel, answers));
      var b := Flow(true, n.body, fuel, t.answers);
      (FlowRound(true, n, fuel, answers) == FlowRound(false, n, fuel, answers)) <==>
      (b.end.Continued? ==> Flow(true, n.update, fuel, b.answers) == Begin(b.answers))
  {
    hide Flow;
    var t := Asked(Flow(true, n.cond, fuel, answers));
    var b := Then(t, Flow(true, n.body, fuel, t.answers));
    var u := Flow(true, n.update, fuel, b.answers);
    SilentAfter(b.(end := Normal), u);
  }

  // What follows `a` leaves no trace exactly if it does nothing.
  lemma SilentAfter(a: Run, b: Run)
    requires a.end.Normal?
    ensures Then(a, b) == a <==> b == Begin(a.answers)
  {
    if b.trace == [] {
      assert a.trace + [] == a.trace;
    } else {
      assert |a.trace + b.trace| != |a.trace|;
    }
  }

  // Where a test holds and its guard fails, the match is alike if and only if the arms behind it do nothing.
  lemma GuardAlike(arms: seq<Arm>, fuel: nat, answers: seq<bool>)
    requires arms != [] && !arms[0].catchAll && arms[0].guard.Some? && answers != [] && answers[0]
    requires FlowGuard(true, arms[0], fuel, answers[1..]) == FlowGuard(false, arms[0], fuel, answers[1..])
    requires var g := FlowGuard(true, arms[0], fuel, answers[1..]); Asked(g).end.Normal? && !Answer(g)
    ensures var left := Asked(FlowGuard(true, arms[0], fuel, answers[1..])).answers;
      (FlowArms(true, arms, fuel, answers) == FlowArms(false, arms, fuel, answers)) <==>
      (FlowArms(false, arms[1..], fuel, left) == Begin(left))
  {
    hide Flow, FlowGuard, FlowBody;
    var g := FlowGuard(true, arms[0], fuel, answers[1..]);
    assert [] + g.trace == g.trace;
    SilentAfter(Asked(g), FlowArms(false, arms[1..], fuel, Asked(g).answers));
  }

  // A try block is alike if and only if its body does not jump, or the finally block that is skipped does nothing but
  // jump the same way.
  lemma TryAlike(n: Node, fuel: nat, answers: seq<bool>)
    requires n.Try? && Flow(true, n.body, fuel, answers) == Flow(false, n.body, fuel, answers)
    requires var left := Flow(true, n.body, fuel, answers).answers;
      FlowOption(true, n.always, fuel, left) == FlowOption(false, n.always, fuel, left)
    ensures var b := Flow(true, n.body, fuel, answers);
      var a := FlowOption(true, n.always, fuel, b.answers);
      (Flow(true, n, fuel, answers) == Flow(false, n, fuel, answers)) <==>
      (Jumped(b) ==> a == Begin(b.answers) || a == Run(b.end, [], b.answers))
  {
    hide FlowOption;
    var b := Flow(true, n.body, fuel, answers);
    var a := FlowOption(true, n.always, fuel, b.answers);
    if a.trace == [] {
      assert b.trace + [] == b.trace;
    } else {
      assert |b.trace + a.trace| != |b.trace|;
    }
  }

  // ---- continue in a for loop ----

  lemma {:induction false} NeverSteps(iter: Node, bind: nat, fuel: nat, answers: seq<bool>)
    ensures FlowLoop(true, For(iter, bind, Continue), fuel, answers).trace == []
    decreases fuel
  {
    if fuel > 0 && answers != [] && !answers[0] {
      NeverSteps(iter, bind, fuel - 1, answers[1..]);
      assert FlowRound(true, For(iter, bind, Continue), fuel, answers) == Again(Run(Normal, [], answers[1..]));
    }
  }

  // for x in xs { continue }: the compiled code never goes on to the next element, so it ends only if there is none.
  lemma ContinueStays(code: seq<Ins>, acts: seq<nat>, bind: nat, answers: seq<bool>, t: State)
    requires Realizes(code, For(Plain(acts), bind, Continue))
    requires Reaches(code, Start(answers), t) && t.pc >= |code|
    ensures t.trace == Dids(acts)
  {
    hide Realizes, FlowLoop;
    var n := For(Plain(acts), bind, Continue);
    CompiledEnds(code, n, answers, t);
    var fuel: nat :| Flow(true, n, fuel, answers) == Run(Normal, t.trace, t.answers);
    NeverSteps(Plain(acts), bind, fuel, answers);
    var rounds := FlowLoop(true, n, fuel, answers);
    assert Flow(true, n, fuel, answers) == Then(Run(Normal, Dids(acts), answers), rounds);
    assert Dids(acts) + [] == Dids(acts);
  }

  function Elements(k: nat): seq<bool> {
    if k == 0 then [true] else [false] + Elements(k - 1)
  }

  function Advances(k: nat): seq<Event> {
    if k == 0 then [] else [Advanced] + Advances(k - 1)
  }

  // In the interpreter the same loop goes once past each of the k elements.
  lemma {:induction false} ContinueSteps(iter: Node, bind: nat, k: nat, fuel: nat)
    requires fuel > k
    ensures FlowLoop(false, For(iter, bind, Continue), fuel, Elements(k)) == Run(Normal, Advances(k), [])
  {
    if k > 0 {
      ContinueSteps(iter, bind, k - 1, fuel - 1);
      assert Elements(k)[1..] == Elements(k - 1);
      var n := For(iter, bind, Continue);
      assert FlowRound(false, n, fuel, Elements(k)) == Again(Run(Normal, [Advanced], Elements(k - 1))) by {
        assert [] + [] + [Advanced] == [Advanced];
      }
    }
  }
}
