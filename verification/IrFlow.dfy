// Which acts a program performs in which order, as far as its control structure decides it: the conditions it tests
// are answered from a list.  Once as the interpreter orders them, once as compiled code does.
module IrFlow {
  import opened Wrappers
  import opened IrShape

  // Used: the answers or the fuel are used up.
  datatype End = Normal | Broke | Continued | Used

  datatype Event = Did(name: nat) | Advanced

  datatype Run = Run(end: End, trace: seq<Event>, answers: seq<bool>)

  // One round of a loop: another one follows, or the loop is over and this is how.
  datatype Round = Again(run: Run) | Over(run: Run)

  function Begin(answers: seq<bool>): Run {
    Run(Normal, [], answers)
  }

  // `b` follows `a`, if that ends normally.
  function Then(a: Run, b: Run): Run {
    if a.end.Normal? then Run(b.end, a.trace + b.trace, b.answers) else a
  }

  // A test after `a`.
  function Asked(a: Run): Run {
    if !a.end.Normal? then a
    else if a.answers == [] then a.(end := Used)
    else a.(answers := a.answers[1..])
  }

  function Answer(a: Run): bool {
    a.end.Normal? && a.answers != [] && a.answers[0]
  }

  function Dids(acts: seq<nat>): seq<Event> {
    if acts == [] then [] else Dids(acts[..|acts| - 1]) + [Did(acts[|acts| - 1])]
  }

  // To the next element.
  function Stepped(a: Run): Run {
    if a.end.Normal? then a.(trace := a.trace + [Advanced]) else a
  }

  predicate Jumped(a: Run) {
    a.end.Broke? || a.end.Continued?
  }

  function Resumed(a: Run): Run {
    if a.end.Continued? then a.(end := Normal) else a
  }

  // What the loop around it makes of a run.
  function Caught(a: Run): Round {
    match a.end
    case Normal => Again(a)
    case Continued => Again(a.(end := Normal))
    case Broke => Over(a.(end := Normal))
    case Used => Over(a)
  }

  predicate IsLoop(n: Node) {
    n.While? || n.Infinite? || n.DoWhile? || n.CFor? || n.For? || n.Comprehension?
  }

  // How compiled code and the interpreter differ:
  //  - a jump in the condition of a loop belongs to that loop in compiled code, to the one around it in the interpreter;
  //  - `continue` goes to the head of the loop in compiled code: it skips the condition of a do-while loop, the update
  //    of a C-style loop, and the step to the next element of a for loop;
  //  - a tested arm whose guard fails ends the match in compiled code;
  //  - a jump out of a try block skips the finally block in compiled code.
  function Flow(compiled: bool, n: Node, fuel: nat, answers: seq<bool>): Run
    decreases fuel, n, 2
  {
    match n
    case Plain(acts) => Run(Normal, Dids(acts), answers)
    case Many(nodes) => FlowAll(compiled, nodes, fuel, answers)
    case Branch(cond, thn, els) =>
      var c := Flow(compiled, cond, fuel, answers);
      var t := Asked(c);
      Then(t, if Answer(c) then Flow(compiled, thn, fuel, t.answers) else FlowOption(compiled, els, fuel, t.answers))
    case Logic(isAnd, left, right) =>
      var l := Flow(compiled, left, fuel, answers);
      var t := Asked(l);
      if Answer(l) == isAnd then Then(t, Flow(compiled, right, fuel, t.answers)) else t
    case Coalesce(left, right) =>
      var l := Flow(compiled, left, fuel, answers);
      var t := Asked(l);
      if Answer(l) then Then(t, Flow(compiled, right, fuel, t.answers)) else t
    case While(_, _) => FlowLoop(compiled, n, fuel, answers)
    case Infinite(_) => FlowLoop(compiled, n, fuel, answers)
    case DoWhile(_, _) => FlowLoop(compiled, n, fuel, answers)
    case CFor(init, _, _, _) =>
      var i := Flow(compiled, init, fuel, answers);
      Then(i, FlowLoop(compiled, n, fuel, i.answers))
    case For(iter, _, _) =>
      var i := Flow(compiled, iter, fuel, answers);
      Then(i, FlowLoop(compiled, n, fuel, i.answers))
    case Comprehension(iter, _, _, _) =>
      var i := Flow(compiled, iter, fuel, answers);
      Then(i, FlowLoop(compiled, n, fuel, i.answers))
    case Match(value, arms) =>
      var v := Flow(compiled, value, fuel, answers);
      Then(v, FlowArms(compiled, arms, fuel, v.answers))
    case Try(body, _, _, always) =>
      var b := Flow(compiled, body, fuel, answers);
      var a := FlowOption(compiled, always, fuel, b.answers);
      if Jumped(b) && !compiled then Then(b.(end := Normal), if a.end.Normal? then a.(end := b.end) else a)
      else Then(b, a)
    case Break(result) =>
      var v := FlowOption(compiled, result, fuel, answers);
      Then(v, Run(Broke, [], v.answers))
    case Continue => Run(Continued, [], answers)
    case Function(_, _) => Begin(answers)
  }

  function FlowOption(compiled: bool, n: Option<Node>, fuel: nat, answers: seq<bool>): Run
    decreases fuel, n, 3
  {
    if n.Some? then Flow(compiled, n.value, fuel, answers) else Begin(answers)
  }

  function FlowAll(compiled: bool, nodes: seq<Node>, fuel: nat, answers: seq<bool>): Run
    decreases fuel, nodes, 0
  {
    if nodes == [] then Begin(answers)
    else
      var first := Flow(compiled, nodes[0], fuel, answers);
      Then(first, FlowAll(compiled, nodes[1..], fuel, first.answers))
  }

  // The rounds of a loop, once what stands before them is done.
  function FlowLoop(compiled: bool, n: Node, fuel: nat, answers: seq<bool>): Run
    requires IsLoop(n)
    decreases fuel, n, 1
  {
    if fuel == 0 then Run(Used, [], answers)
    else
      match FlowRound(compiled, n, fuel, answers)
      case Over(r) => r
      case Again(r) => Then(r, FlowLoop(compiled, n, fuel - 1, r.answers))
  }

  function FlowRound(compiled: bool, n: Node, fuel: nat, answers: seq<bool>): Round
    requires IsLoop(n)
    decreases fuel, n, 0
  {
    match n
    case While(cond, body) =>
      var c := Flow(compiled, cond, fuel, answers);
      var t := Asked(c);
      if Jumped(c) && !compiled then Over(c)
      else if t.end.Normal? && !Answer(c) then Over(t)
      else Caught(Then(t, Flow(compiled, body, fuel, t.answers)))
    case Infinite(body) => Caught(Flow(compiled, body, fuel, answers))
    case DoWhile(body, cond) =>
      var b := Flow(compiled, body, fuel, answers);
      var done := if compiled then b else Resumed(b);
      var c := Then(done, Flow(compiled, cond, fuel, done.answers));
      var t := Asked(c);
      if Jumped(c) && !Jumped(done) && !compiled then Over(c)
      else if t.end.Normal? && !Answer(c) then Over(t)
      else Caught(t)
    case CFor(_, cond, update, body) =>
      var c := Flow(compiled, cond, fuel, answers);
      var t := Asked(c);
      if Jumped(c) && !compiled then Over(c)
      else if t.end.Normal? && !Answer(c) then Over(t)
      else
        var b := Then(t, Flow(compiled, body, fuel, t.answers));
        var done := if compiled then b else Resumed(b);
        var u := Then(done, Flow(compiled, update, fuel, done.answers));
        if Jumped(u) && !Jumped(done) && !compiled then Over(u) else Caught(u)
    case For(_, _, body) =>
      var t := Asked(Begin(answers));
      if Answer(Begin(answers)) then Over(t)
      else
        var b := Then(t, Flow(compiled, body, fuel, t.answers));
        Caught(Stepped(if compiled then b else Resumed(b)))
    case Comprehension(_, _, filter, element) =>
      var t := Asked(Begin(answers));
      if Answer(Begin(answers)) then Over(t)
      else
        var f := Then(t, FlowOption(compiled, filter, fuel, t.answers));
        var g := if filter.Some? then Asked(f) else f;
        if g.end.Normal? && filter.Some? && !Answer(f) then Again(Stepped(g))
        else
          var e := Then(g, Flow(compiled, element, fuel, g.answers));
          if e.end.Normal? then Again(Stepped(e)) else Over(e)
  }

  // The first arm that matches, and whose guard holds.
  function FlowArms(compiled: bool, arms: seq<Arm>, fuel: nat, answers: seq<bool>): Run
    decreases fuel, arms, 0
  {
    if arms == [] then Begin(answers)
    else
      var a := arms[0];
      var start := Begin(answers);
      var test := if a.catchAll then start else Asked(start);
      if !a.catchAll && test.end.Normal? && !Answer(start) then Then(test, FlowArms(compiled, arms[1..], fuel, test.answers))
      else
        var g := Then(test, FlowGuard(compiled, a, fuel, test.answers));
        var ask := if a.guard.Some? then Asked(g) else g;
        if a.guard.Some? && ask.end.Normal? && !Answer(g) then
          if compiled && !a.catchAll then ask else Then(ask, FlowArms(compiled, arms[1..], fuel, ask.answers))
        else Then(ask, FlowBody(compiled, a, fuel, ask.answers))
  }

  function FlowGuard(compiled: bool, a: Arm, fuel: nat, answers: seq<bool>): Run
    decreases fuel, a, 4
  {
    FlowOption(compiled, a.guard, fuel, answers)
  }

  function FlowBody(compiled: bool, a: Arm, fuel: nat, answers: seq<bool>): Run
    decreases fuel, a, 3
  {
    Flow(compiled, a.body, fuel, answers)
  }
}
