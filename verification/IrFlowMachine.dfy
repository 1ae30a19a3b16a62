// A machine for the control instructions: it counts openings and ends to find where a label, a failed condition or the
// end of a then part leads.  Nothing in it knows the program the code was made from.
module IrFlowMachine {
  import opened Wrappers
  import opened IrShape
  import opened IrFlow
  import opened IrTreeRun

  datatype State = State(pc: nat, test: Test, trace: seq<Event>, answers: seq<bool>)

  predicate Opening(i: Ins) {
    i == Block || i == Loop || i == If
  }

  // The first unmatched end from `at` on, or the first else of the same construct.
  function Seek(code: seq<Ins>, at: nat, depth: nat, orElse: bool): nat
    decreases |code| - at
  {
    if at >= |code| then at
    else if Opening(code[at]) then Seek(code, at + 1, depth + 1, orElse)
    else if code[at] == End then (if depth == 0 then at else Seek(code, at + 1, depth - 1, orElse))
    else if code[at] == Else && depth == 0 && orElse then at
    else Seek(code, at + 1, depth, orElse)
  }

  // Where the constructs that are open before `at` begin.
  function Opened(code: seq<Ins>, at: nat): seq<nat>
    requires at <= |code|
  {
    if at == 0 then []
    else
      var before := Opened(code, at - 1);
      if Opening(code[at - 1]) then before + [at - 1]
      else if code[at - 1] == End && before != [] then before[..|before| - 1]
      else before
  }

  // A branch to a loop goes to its head, any other goes behind the end.
  function Landing(code: seq<Ins>, head: nat): nat {
    if head < |code| && code[head] == Loop then head else Seek(code, head + 1, 0, false) + 1
  }

  function Target(code: seq<Ins>, at: nat, to: nat): Option<nat>
    requires at <= |code|
  {
    var open := Opened(code, at);
    if to < |open| then Some(Landing(code, open[|open| - 1 - to])) else None
  }

  function Go(s: State, pc: nat, test: Test): State {
    s.(pc := pc, test := test)
  }

  // None: the code has ended, or the answers are used up.
  function Move(code: seq<Ins>, s: State): Option<State> {
    if s.pc >= |code| then None
    else
      match code[s.pc]
      case Block => Some(Go(s, s.pc + 1, Fresh))
      case Loop => Some(Go(s, s.pc + 1, Fresh))
      case End => Some(Go(s, s.pc + 1, Fresh))
      case Else => Some(Go(s, Seek(code, s.pc + 1, 0, false) + 1, Fresh))
      case If =>
        (match Taken(s.test, s.answers)
         case None => None
         case Some((b, rest)) => Some(Go(s, if b then s.pc + 1 else Seek(code, s.pc + 1, 0, true) + 1, Fresh).(answers := rest)))
      case Br(to) =>
        (match Target(code, s.pc, to)
         case None => None
         case Some(pc) => Some(Go(s, pc, Fresh)))
      case BrIf(to) =>
        (match Taken(s.test, s.answers)
         case None => None
         case Some((b, rest)) =>
           match Target(code, s.pc, to)
           case None => None
           case Some(pc) => Some(Go(s, if b then pc else s.pc + 1, Fresh).(answers := rest)))
      case Do(w) => Some(State(s.pc + 1, After(w), s.trace + Shown(w), s.answers))
  }

  function Moves(code: seq<Ins>, s: State, n: nat): Option<State>
    decreases n
  {
    if n == 0 then Some(s)
    else
      match Move(code, s)
      case None => None
      case Some(t) => Moves(code, t, n - 1)
  }

  // ---- runs ----

  ghost predicate Reaches(code: seq<Ins>, s: State, t: State) {
    exists n: nat :: Moves(code, s, n) == Some(t)
  }

  // Within `m` steps the end of the code is not reached.
  ghost predicate Lasts(code: seq<Ins>, s: State, m: nat) {
    forall n: nat :: n < m && Moves(code, s, n).Some? ==> Moves(code, s, n).value.pc < |code|
  }

  lemma Stays(code: seq<Ins>, s: State)
    ensures Reaches(code, s, s)
  {
    assert Moves(code, s, 0) == Some(s);
  }

  lemma {:induction false} StepsJoin(code: seq<Ins>, s: State, m: nat, n: nat)
    ensures Moves(code, s, m + n) == if Moves(code, s, m).Some? then Moves(code, Moves(code, s, m).value, n) else None
    decreases m
  {
    hide Move;
    if m > 0 {
      match Move(code, s)
      case None =>
      case Some(t) => StepsJoin(code, t, m - 1, n);
    }
  }

  lemma ReachesJoin(code: seq<Ins>, s: State, t: State, u: State)
    requires Reaches(code, s, t) && Reaches(code, t, u)
    ensures Reaches(code, s, u)
  {
    hide Moves;
    var m: nat :| Moves(code, s, m) == Some(t);
    var n: nat :| Moves(code, t, n) == Some(u);
    StepsJoin(code, s, m, n);
  }

  lemma ReachesStep(code: seq<Ins>, s: State, t: State, u: State)
    requires Move(code, s) == Some(t) && Reaches(code, t, u)
    ensures Reaches(code, s, u)
  {
    var n: nat :| Moves(code, t, n) == Some(u);
    assert Moves(code, s, n + 1) == Some(u);
  }

  lemma {:induction false} Running(code: seq<Ins>, s: State, n: nat, m: nat)
    requires n < m && Moves(code, s, m).Some?
    ensures Moves(code, s, n).Some? && Moves(code, s, n).value.pc < |code|
  {
    StepsJoin(code, s, n, m - n);
  }

  lemma LastsAfter(code: seq<Ins>, s: State, t: State, m: nat)
    requires Reaches(code, s, t) && Lasts(code, t, m)
    ensures Lasts(code, s, m)
  {
    hide Moves;
    var k: nat :| Moves(code, s, k) == Some(t);
    forall n: nat | n < m && Moves(code, s, n).Some?
      ensures Moves(code, s, n).value.pc < |code|
    {
      if n < k {
        Running(code, s, n, k);
      } else {
        StepsJoin(code, s, k, n - k);
      }
    }
  }

  lemma LastsStep(code: seq<Ins>, s: State, t: State, m: nat)
    requires Move(code, s) == Some(t) && Lasts(code, t, m)
    ensures Lasts(code, s, m + 1)
  {
    hide Move;
    forall n: nat | n < m + 1 && Moves(code, s, n).Some?
      ensures Moves(code, s, n).value.pc < |code|
    {
      if n == 0 {
        assert s.pc < |code| by { Within(code, s); }
      } else {
        assert Moves(code, s, n) == Moves(code, t, n - 1);
      }
    }
  }

  lemma Within(code: seq<Ins>, s: State)
    requires Move(code, s).Some?
    ensures s.pc < |code|
  {
  }

  // Without an answer the machine stops where it is.
  lemma LastsStuck(code: seq<Ins>, s: State, m: nat)
    requires s.pc < |code| && Move(code, s) == None
    ensures Lasts(code, s, m)
  {
    hide Move;
    forall n: nat | n < m && Moves(code, s, n).Some?
      ensures Moves(code, s, n).value.pc < |code|
    {
      assert n == 0;
    }
  }

  // A run that ends has one end.
  lemma EndUnique(code: seq<Ins>, s: State, t: State, u: State)
    requires Reaches(code, s, t) && Reaches(code, s, u) && t.pc >= |code| && u.pc >= |code|
    ensures t == u
  {
    hide Moves, Move;
    var m: nat :| Moves(code, s, m) == Some(t);
    var n: nat :| Moves(code, s, n) == Some(u);
    if m < n {
      Running(code, s, m, n);
    } else if n < m {
      Running(code, s, n, m);
    }
  }
}
