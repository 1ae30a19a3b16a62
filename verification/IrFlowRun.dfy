// Code read against the marks of a tree runs as the tree: whatever the labels, the machine goes where the marks say.
module IrFlowRun {
  import opened Wrappers
  import opened IrShape
  import opened IrFlow
  import opened IrTree
  import opened IrTreeRun
  import opened IrFlowMachine

  // ---- code and marks ----

  // Whether an instruction is of the kind its mark says, labels aside.
  predicate Fits(i: Ins, m: Mark) {
    match m
    case Opens(o) => i == (match o.kind case KBlock => Block case KLoop => Loop case KIf => If case KElse => Else) && !o.kind.KElse?
    case Turns => i == Else
    case Closes => i == End
    case Jumps(conditional, _) => if conditional then i.BrIf? else i.Br?
    case Works(w) => i == Do(w)
  }

  // What is open before `at`.
  function Open(code: seq<Ins>, marks: seq<Mark>, at: nat): Option<seq<Opener>>
    requires at <= |code| && at <= |marks|
  {
    Read(code[..at], marks[..at])
  }

  // All of the code reads, and no construct is opened twice.
  ghost predicate Sound(code: seq<Ins>, marks: seq<Mark>) {
    && |code| == |marks|
    && (forall i: nat :: i <= |code| ==> Open(code, marks, i).Some?)
    && (forall i: nat :: i < |code| ==> Fits(code[i], marks[i]))
    && (forall i: nat, j: nat :: i < j < |marks| && marks[i].Opens? && marks[j].Opens? ==> marks[i] != marks[j])
  }

  lemma OpenNext(code: seq<Ins>, marks: seq<Mark>, at: nat)
    requires |code| == |marks| && at < |code| && Open(code, marks, at + 1).Some?
    ensures Open(code, marks, at).Some?
    ensures Open(code, marks, at + 1) == Take(code[at], marks[at], Open(code, marks, at).value)
  {
    hide Take;
    var c, m := code[..at + 1], marks[..at + 1];
    assert c[..at] == code[..at] && m[..at] == marks[..at];
  }

  lemma {:induction false} ReadsAll(code: seq<Ins>, marks: seq<Mark>, at: nat)
    requires |code| == |marks| && at <= |code| && Read(code, marks).Some?
    ensures Open(code, marks, at).Some?
    ensures at < |code| ==> Fits(code[at], marks[at])
    decreases |code| - at
  {
    hide Read;
    if at == |code| {
      assert code[..at] == code && marks[..at] == marks;
    } else {
      ReadsAll(code, marks, at + 1);
      OpenNext(code, marks, at);
    }
  }

  // `part` stands at `at`.
  predicate Placed(marks: seq<Mark>, at: nat, part: seq<Mark>) {
    at + |part| <= |marks| && marks[at..at + |part|] == part
  }

  lemma PlacedJoin(marks: seq<Mark>, at: nat, a: seq<Mark>, b: seq<Mark>)
    requires Placed(marks, at, a + b)
    ensures Placed(marks, at, a) && Placed(marks, at + |a|, b)
  {
    var x := marks[at..at + |a + b|];
    assert x[..|a|] == a && x[|a|..] == b;
    assert marks[at..at + |a|] == x[..|a|] && marks[at + |a|..at + |a| + |b|] == x[|a|..];
  }

  lemma PlacedAt(marks: seq<Mark>, at: nat, m: Mark)
    requires Placed(marks, at, [m])
    ensures at < |marks| && marks[at] == m
  {
    assert marks[at..at + 1][0] == m;
  }

  // The parts of a construct where they stand.
  lemma InsidePlaced(marks: seq<Mark>, at: nat, o: Goal, body: seq<Tree>)
    requires Placed(marks, at, FlatOne(Inside(o, body)))
    ensures Placed(marks, at + 1, Flat(body)) && at + 1 + |Flat(body)| < |marks|
    ensures marks[at] == Opens(o) && marks[at + 1 + |Flat(body)|] == Closes
    ensures |FlatOne(Inside(o, body))| == |Flat(body)| + 2
  {
    hide Flat;
    PlacedJoin(marks, at, [Opens(o)] + Flat(body), [Closes]);
    PlacedJoin(marks, at, [Opens(o)], Flat(body));
    PlacedAt(marks, at, Opens(o));
    PlacedAt(marks, at + 1 + |Flat(body)|, Closes);
  }

  lemma PartsPlaced(marks: seq<Mark>, at: nat, open: Mark, a: seq<Mark>, turn: Mark, b: seq<Mark>, close: Mark)
    requires Placed(marks, at, [open] + a + ([turn] + b) + [close])
    ensures var mid := at + 1 + |a|;
      var end := mid + 1 + |b|;
      && Placed(marks, at + 1, a) && Placed(marks, mid + 1, b) && end < |marks|
      && marks[at] == open && marks[mid] == turn && marks[end] == close
  {
    hide Placed;
    var mid := at + 1 + |a|;
    PlacedJoin(marks, at, [open] + a + ([turn] + b), [close]);
    PlacedJoin(marks, at, [open] + a, [turn] + b);
    PlacedJoin(marks, at, [open], a);
    PlacedJoin(marks, mid, [turn], b);
    PlacedAt(marks, at, open);
    PlacedAt(marks, mid, turn);
    PlacedAt(marks, mid + 1 + |b|, close);
  }

  lemma ChoicePlaced(marks: seq<Mark>, at: nat, o: Tested, thn: seq<Tree>, els: seq<Tree>)
    requires Placed(marks, at, FlatOne(Choice(o, thn, true, els)))
    ensures var turn := at + 1 + |Flat(thn)|;
      var end := turn + 1 + |Flat(els)|;
      && Placed(marks, at + 1, Flat(thn)) && Placed(marks, turn + 1, Flat(els)) && end < |marks|
      && marks[at] == Opens(o) && marks[turn] == Turns && marks[end] == Closes
      && at + |FlatOne(Choice(o, thn, true, els))| == end + 1
  {
    hide Flat, Placed;
    PartsPlaced(marks, at, Opens(o), Flat(thn), Turns, Flat(els), Closes);
  }

  lemma ShortPlaced(marks: seq<Mark>, at: nat, o: Tested, thn: seq<Tree>, els: seq<Tree>)
    requires Placed(marks, at, FlatOne(Choice(o, thn, false, els)))
    ensures Placed(marks, at + 1, Flat(thn)) && at + 1 + |Flat(thn)| < |marks|
    ensures marks[at] == Opens(o) && marks[at + 1 + |Flat(thn)|] == Closes
    ensures |FlatOne(Choice(o, thn, false, els))| == |Flat(thn)| + 2
  {
    hide Flat;
    assert [Opens(o)] + Flat(thn) + [] == [Opens(o)] + Flat(thn);
    PlacedJoin(marks, at, [Opens(o)] + Flat(thn), [Closes]);
    PlacedJoin(marks, at, [Opens(o)], Flat(thn));
    PlacedAt(marks, at, Opens(o));
    PlacedAt(marks, at + 1 + |Flat(thn)|, Closes);
  }

  lemma SoundLength(code: seq<Ins>, marks: seq<Mark>)
    requires Sound(code, marks)
    ensures |code| == |marks|
  {
  }

  // ---- whole trees are skipped ----

  // Between `at` and `to` nothing is left open or closed: a search passes, and the same constructs are open.
  ghost predicate Skips(code: seq<Ins>, marks: seq<Mark>, at: nat, to: nat) {
    && at <= to <= |code| == |marks|
    && (forall depth: nat, orElse: bool :: Seek(code, at, depth, orElse) == Seek(code, to, depth, orElse))
    && Opened(code, at) == Opened(code, to)
    && Open(code, marks, at) == Open(code, marks, to)
  }

  lemma SkipsJoin(code: seq<Ins>, marks: seq<Mark>, a: nat, b: nat, c: nat)
    requires Skips(code, marks, a, b) && Skips(code, marks, b, c)
    ensures Skips(code, marks, a, c)
  {
    hide Seek, Opened, Open;
    forall depth: nat, orElse: bool
      ensures Seek(code, a, depth, orElse) == Seek(code, c, depth, orElse)
    {
      assert Seek(code, a, depth, orElse) == Seek(code, b, depth, orElse);
    }
  }

  lemma {:induction false} SkipAll(code: seq<Ins>, marks: seq<Mark>, ts: seq<Tree>, at: nat)
    requires Sound(code, marks) && Placed(marks, at, Flat(ts))
    ensures Skips(code, marks, at, at + |Flat(ts)|)
    decreases ts, 0
  {
    hide FlatOne, Skips, Sound;
    SoundLength(code, marks);
    if ts == [] {
      SkipNone(code, marks, at);
    } else {
      PlacedJoin(marks, at, FlatOne(ts[0]), Flat(ts[1..]));
      SkipOne(code, marks, ts[0], at);
      var next := at + |FlatOne(ts[0])|;
      SkipAll(code, marks, ts[1..], next);
      SkipsJoin(code, marks, at, next, next + |Flat(ts[1..])|);
    }
  }

  lemma SkipNone(code: seq<Ins>, marks: seq<Mark>, at: nat)
    requires Sound(code, marks) && at <= |code|
    ensures Skips(code, marks, at, at)
  {
    hide Seek, Opened, Open;
  }

  lemma {:induction false} SkipOne(code: seq<Ins>, marks: seq<Mark>, t: Tree, at: nat)
    requires Sound(code, marks) && Placed(marks, at, FlatOne(t))
    ensures Skips(code, marks, at, at + |FlatOne(t)|)
    decreases t, 1
  {
    hide Skips, Sound, Flat, Placed;
    SoundLength(code, marks);
    match t
    case Step(w) => SkipPlain(code, marks, at, Works(w));
    case Exit(conditional, o) => SkipPlain(code, marks, at, Jumps(conditional, o));
    case Inside(o, body) =>
      InsidePlaced(marks, at, o, body);
      SkipAll(code, marks, body, at + 1);
      SkipBody(code, marks, at, at + 1 + |Flat(body)|, o);
    case Choice(o, thn, turns, els) =>
      if turns {
        ChoicePlaced(marks, at, o, thn, els);
        var turn := at + 1 + |Flat(thn)|;
        SkipAll(code, marks, thn, at + 1);
        SkipAll(code, marks, els, turn + 1);
        SkipBoth(code, marks, at, turn, turn + 1 + |Flat(els)|, o);
      } else {
        ShortPlaced(marks, at, o, thn, els);
        SkipAll(code, marks, thn, at + 1);
        SkipBody(code, marks, at, at + 1 + |Flat(thn)|, o);
      }
  }

  lemma SkipPlain(code: seq<Ins>, marks: seq<Mark>, at: nat, m: Mark)
    requires Sound(code, marks) && Placed(marks, at, [m]) && (m.Works? || m.Jumps?)
    ensures Skips(code, marks, at, at + 1)
  {
    hide Open;
    PlacedAt(marks, at, m);
    assert Fits(code[at], marks[at]);
    PlainOpen(code, marks, at);
  }

  lemma PlainOpen(code: seq<Ins>, marks: seq<Mark>, at: nat)
    requires Sound(code, marks) && at < |code| && (marks[at].Works? || marks[at].Jumps?)
    ensures Open(code, marks, at) == Open(code, marks, at + 1)
  {
    hide Open;
    assert Open(code, marks, at + 1).Some?;
    OpenNext(code, marks, at);
  }

  lemma SkipBody(code: seq<Ins>, marks: seq<Mark>, at: nat, end: nat, o: Opener)
    requires Sound(code, marks) && at < end < |code| && marks[at] == Opens(o) && marks[end] == Closes && Skips(code, marks, at + 1, end)
    ensures Skips(code, marks, at, end + 1)
  {
    hide Open;
    assert Fits(code[at], marks[at]) && Fits(code[end], marks[end]);
    forall depth: nat, orElse: bool
      ensures Seek(code, at, depth, orElse) == Seek(code, end + 1, depth, orElse)
    {
      assert Seek(code, at + 1, depth + 1, orElse) == Seek(code, end, depth + 1, orElse);
    }
    OpensOpen(code, marks, at);
    ClosesOpen(code, marks, end);
  }

  lemma OpensOpen(code: seq<Ins>, marks: seq<Mark>, at: nat)
    requires Sound(code, marks) && at < |code| && marks[at].Opens?
    ensures Open(code, marks, at).Some? && Open(code, marks, at + 1) == Some(Open(code, marks, at).value + [marks[at].opener])
    ensures Opened(code, at + 1) == Opened(code, at) + [at]
  {
    hide Open;
    assert Open(code, marks, at + 1).Some? && Fits(code[at], marks[at]);
    OpenNext(code, marks, at);
  }

  lemma ClosesOpen(code: seq<Ins>, marks: seq<Mark>, at: nat)
    requires Sound(code, marks) && at < |code| && marks[at] == Closes
    ensures Open(code, marks, at).Some? && Open(code, marks, at).value != []
    ensures var open := Open(code, marks, at).value; Open(code, marks, at + 1) == Some(open[..|open| - 1])
    ensures var open := Opened(code, at); Opened(code, at + 1) == if open == [] then [] else open[..|open| - 1]
  {
    hide Open;
    assert Open(code, marks, at + 1).Some? && Fits(code[at], marks[at]);
    OpenNext(code, marks, at);
  }

  lemma TurnsOpen(code: seq<Ins>, marks: seq<Mark>, at: nat)
    requires Sound(code, marks) && at < |code| && marks[at] == Turns
    ensures Open(code, marks, at).Some? && Open(code, marks, at).value != []
    ensures var open := Open(code, marks, at).value;
      Open(code, marks, at + 1) == Some(open[..|open| - 1] + [Opener(KElse, open[|open| - 1].owner)])
    ensures Opened(code, at + 1) == Opened(code, at)
  {
    hide Open;
    assert Open(code, marks, at + 1).Some? && Fits(code[at], marks[at]);
    OpenNext(code, marks, at);
  }

  lemma SkipBoth(code: seq<Ins>, marks: seq<Mark>, at: nat, turn: nat, end: nat, o: Opener)
    requires Sound(code, marks) && at < turn < end < |code|
    requires marks[at] == Opens(o) && marks[turn] == Turns && marks[end] == Closes
    requires Skips(code, marks, at + 1, turn) && Skips(code, marks, turn + 1, end)
    ensures Skips(code, marks, at, end + 1)
  {
    hide Open;
    assert Fits(code[at], marks[at]) && Fits(code[end], marks[end]) && Fits(code[turn], marks[turn]);
    forall depth: nat, orElse: bool
      ensures Seek(code, at, depth, orElse) == Seek(code, end + 1, depth, orElse)
    {
      assert Seek(code, at + 1, depth + 1, orElse) == Seek(code, turn, depth + 1, orElse);
      assert Seek(code, turn + 1, depth + 1, orElse) == Seek(code, end, depth + 1, orElse);
    }
    OpensOpen(code, marks, at);
    TurnsOpen(code, marks, turn);
    ClosesOpen(code, marks, end);
  }

  // ---- the constructs around a place ----

  datatype Frame = Frame(opener: Opener, head: nat)

  ghost predicate Around(marks: seq<Mark>, f: Frame, open: Opener, head: nat, at: nat) {
    && head == f.head < at <= |marks| && marks[head] == Opens(f.opener)
    && (open == f.opener || (f.opener.kind.KIf? && open.kind.KElse?))
  }

  ghost predicate Context(code: seq<Ins>, marks: seq<Mark>, ctx: seq<Frame>, at: nat) {
    && at <= |code| == |marks| && Open(code, marks, at).Some?
    && |ctx| == |Open(code, marks, at).value| == |Opened(code, at)|
    && (forall i: nat :: i < |ctx| ==> Around(marks, ctx[i], Open(code, marks, at).value[i], Opened(code, at)[i], at))
    && (forall i: nat, j: nat :: i < j < |ctx| ==> ctx[i].opener != ctx[j].opener)
  }

  lemma ContextSkips(code: seq<Ins>, marks: seq<Mark>, ctx: seq<Frame>, at: nat, to: nat)
    requires Context(code, marks, ctx, at) && Skips(code, marks, at, to)
    ensures Context(code, marks, ctx, to)
  {
    hide Seek, Opened, Open;
  }

  lemma ContextEnters(code: seq<Ins>, marks: seq<Mark>, ctx: seq<Frame>, at: nat, o: Opener)
    requires Sound(code, marks) && Context(code, marks, ctx, at) && at < |code| && marks[at] == Opens(o)
    ensures Context(code, marks, ctx + [Frame(o, at)], at + 1)
  {
    hide Open, Opened;
    OpensOpen(code, marks, at);
    assert Open(code, marks, at + 1).Some?;
    var all := ctx + [Frame(o, at)];
    forall i: nat | i < |ctx|
      ensures all[i].opener != o
    {
      assert Around(marks, ctx[i], Open(code, marks, at).value[i], Opened(code, at)[i], at);
      assert marks[ctx[i].head] != marks[at];
    }
    forall i: nat | i < |all|
      ensures Around(marks, all[i], Open(code, marks, at + 1).value[i], Opened(code, at + 1)[i], at + 1)
    {
      if i < |ctx| {
        assert Around(marks, ctx[i], Open(code, marks, at).value[i], Opened(code, at)[i], at);
      }
    }
  }

  lemma ContextTurns(code: seq<Ins>, marks: seq<Mark>, ctx: seq<Frame>, at: nat, o: Tested, head: nat)
    requires Sound(code, marks) && Context(code, marks, ctx + [Frame(o, head)], at) && at < |code| && marks[at] == Turns
    ensures Context(code, marks, ctx + [Frame(o, head)], at + 1)
  {
    hide Open, Opened;
    TurnsOpen(code, marks, at);
    var all := ctx + [Frame(o, head)];
    forall i: nat | i < |all|
      ensures Around(marks, all[i], Open(code, marks, at + 1).value[i], Opened(code, at + 1)[i], at + 1)
    {
      assert Around(marks, all[i], Open(code, marks, at).value[i], Opened(code, at)[i], at);
    }
  }

  // ---- where searches end ----

  lemma SeekEnd(code: seq<Ins>, marks: seq<Mark>, at: nat, end: nat)
    requires Sound(code, marks) && Skips(code, marks, at, end) && end < |code| && marks[end] == Closes
    ensures Seek(code, at, 0, false) == Seek(code, at, 0, true) == end
  {
    hide Opened, Open;
    assert Fits(code[end], marks[end]);
    assert Seek(code, at, 0, false) == Seek(code, end, 0, false) && Seek(code, at, 0, true) == Seek(code, end, 0, true);
  }

  lemma SeekElse(code: seq<Ins>, marks: seq<Mark>, at: nat, turn: nat)
    requires Sound(code, marks) && Skips(code, marks, at, turn) && turn < |code| && marks[turn] == Turns
    ensures Seek(code, at, 0, true) == turn
  {
    hide Opened, Open;
    assert Fits(code[turn], marks[turn]);
    assert Seek(code, at, 0, true) == Seek(code, turn, 0, true);
  }

  // ---- runs ----

  ghost predicate Lands(code: seq<Ins>, ctx: seq<Frame>, s: State, o: Opener, trace: seq<Event>, answers: seq<bool>) {
    exists k: nat :: k < |ctx| && ctx[k].opener == o && Reaches(code, s, State(Landing(code, ctx[k].head), Fresh, s.trace + trace, answers))
  }

  // The machine goes from `s` where the walk goes: on to `next`, to the construct a branch names, or on and on.
  ghost predicate RunsAs(code: seq<Ins>, ctx: seq<Frame>, s: State, w: Walk, next: nat, fuel: nat) {
    match w.way
    case Fall => Reaches(code, s, State(next, w.test, s.trace + w.trace, w.answers))
    case Jump(o) => Lands(code, ctx, s, o, w.trace, w.answers)
    case Spent => Lasts(code, s, fuel)
  }

  lemma LandsAfter(code: seq<Ins>, ctx: seq<Frame>, s: State, t: State, o: Opener, first: seq<Event>, trace: seq<Event>, answers: seq<bool>)
    requires Reaches(code, s, t) && t.trace == s.trace + first && Lands(code, ctx, t, o, trace, answers)
    ensures Lands(code, ctx, s, o, first + trace, answers)
  {
    hide Reaches, Landing;
    var k: nat :| k < |ctx| && ctx[k].opener == o && Reaches(code, t, State(Landing(code, ctx[k].head), Fresh, t.trace + trace, answers));
    ReachesJoin(code, s, t, State(Landing(code, ctx[k].head), Fresh, t.trace + trace, answers));
    assert s.trace + first + trace == s.trace + (first + trace);
  }

  lemma RunsJoin(code: seq<Ins>, ctx: seq<Frame>, s: State, a: Walk, b: Walk, mid: nat, next: nat, fuel: nat)
    requires RunsAs(code, ctx, s, a, mid, fuel) && a.way.Fall?
    requires RunsAs(code, ctx, State(mid, a.test, s.trace + a.trace, a.answers), b, next, fuel)
    ensures RunsAs(code, ctx, s, Also(a, b), next, fuel)
  {
    hide Reaches, Lands, Lasts;
    var t := State(mid, a.test, s.trace + a.trace, a.answers);
    match b.way
    case Fall =>
      ReachesJoin(code, s, t, State(next, b.test, t.trace + b.trace, b.answers));
      assert s.trace + a.trace + b.trace == s.trace + (a.trace + b.trace);
    case Jump(o) => LandsAfter(code, ctx, s, t, o, a.trace, b.trace, b.answers);
    case Spent => LastsAfter(code, s, t, fuel);
  }

  lemma RunNone(code: seq<Ins>, ctx: seq<Frame>, s: State, fuel: nat)
    ensures RunsAs(code, ctx, s, Walk(Fall, s.test, [], s.answers), s.pc, fuel)
  {
    hide Reaches;
    Stays(code, s);
    assert s.trace + [] == s.trace;
  }

  // One step into a construct, its inside run, and where that falls out, one step over its end.
  lemma RunAround(code: seq<Ins>, ctx: seq<Frame>, f: Frame, s: State, t: State, w: Walk, stop: nat, next: nat, fuel: nat)
    requires Move(code, s) == Some(t) && t.trace == s.trace
    requires RunsAs(code, ctx + [f], t, w, stop, fuel)
    requires w.way.Fall? ==> Move(code, State(stop, w.test, t.trace + w.trace, w.answers)) == Some(State(next, Fresh, t.trace + w.trace, w.answers))
    requires w.way.Jump? ==> w.way.target != f.opener
    ensures RunsAs(code, ctx, s, Closed(w), next, fuel)
  {
    hide Reaches, Lasts, Move, Landing;
    match w.way
    case Fall =>
      var u, v := State(stop, w.test, t.trace + w.trace, w.answers), State(next, Fresh, t.trace + w.trace, w.answers);
      Stays(code, v);
      ReachesStep(code, u, v, v);
      ReachesJoin(code, t, u, v);
      ReachesStep(code, s, t, v);
    case Jump(o) =>
      var all := ctx + [f];
      var k: nat :| k < |all| && all[k].opener == o && Reaches(code, t, State(Landing(code, all[k].head), Fresh, t.trace + w.trace, w.answers));
      ReachesStep(code, s, t, State(Landing(code, all[k].head), Fresh, t.trace + w.trace, w.answers));
      assert ctx[k] == all[k];
    case Spent =>
      LastsStep(code, s, t, fuel);
      LastsLess(code, s, fuel);
  }

  lemma LastsLess(code: seq<Ins>, s: State, m: nat)
    requires Lasts(code, s, m + 1)
    ensures Lasts(code, s, m)
  {
    hide Moves;
  }

  lemma {:induction false} RunAll(code: seq<Ins>, marks: seq<Mark>, ctx: seq<Frame>, ts: seq<Tree>, fuel: nat, s: State)
    requires Sound(code, marks) && Placed(marks, s.pc, Flat(ts)) && Context(code, marks, ctx, s.pc)
    ensures RunsAs(code, ctx, s, WalkAll(ts, fuel, s.test, s.answers), s.pc + |Flat(ts)|, fuel)
    decreases fuel, ts, 0
  {
    hide Sound, Context, RunsAs, FlatOne, WalkOne, Placed, Skips;
    if ts == [] {
      RunNone(code, ctx, s, fuel);
    } else {
      PlacedJoin(marks, s.pc, FlatOne(ts[0]), Flat(ts[1..]));
      RunOne(code, marks, ctx, ts[0], fuel, s);
      var a := WalkOne(ts[0], fuel, s.test, s.answers);
      var next := s.pc + |FlatOne(ts[0])|;
      if a.way.Fall? {
        var t := State(next, a.test, s.trace + a.trace, a.answers);
        SkipOne(code, marks, ts[0], s.pc);
        ContextSkips(code, marks, ctx, s.pc, next);
        RunAll(code, marks, ctx, ts[1..], fuel, t);
        RunsJoin(code, ctx, s, a, WalkAll(ts[1..], fuel, t.test, t.answers), next, next + |Flat(ts[1..])|, fuel);
      } else {
        RunsElsewhere(code, ctx, s, a, next, next + |Flat(ts[1..])|, fuel);
      }
    }
  }

  lemma RunsElsewhere(code: seq<Ins>, ctx: seq<Frame>, s: State, w: Walk, next: nat, other: nat, fuel: nat)
    requires RunsAs(code, ctx, s, w, next, fuel) && !w.way.Fall?
    ensures RunsAs(code, ctx, s, w, other, fuel)
  {
    hide Lands, Lasts;
  }

  lemma {:induction false} RunOne(code: seq<Ins>, marks: seq<Mark>, ctx: seq<Frame>, t: Tree, fuel: nat, s: State)
    requires Sound(code, marks) && Placed(marks, s.pc, FlatOne(t)) && Context(code, marks, ctx, s.pc)
    ensures RunsAs(code, ctx, s, WalkOne(t, fuel, s.test, s.answers), s.pc + |FlatOne(t)|, fuel)
    decreases fuel, t, 2
  {
    hide Sound, Context, RunsAs, Flat, WalkAll, WalkOne, Placed;
    match t
    case Step(w) => StepRun(code, marks, ctx, w, fuel, s);
    case Exit(conditional, o) => ExitRun(code, marks, ctx, conditional, o, fuel, s);
    case Inside(o, body) => InsideRun(code, marks, ctx, t, fuel, s);
    case Choice(o, thn, turns, els) => ChoiceRun(code, marks, ctx, t, fuel, s);
  }

  lemma StepRun(code: seq<Ins>, marks: seq<Mark>, ctx: seq<Frame>, w: Work, fuel: nat, s: State)
    requires Sound(code, marks) && Placed(marks, s.pc, [Works(w)])
    ensures RunsAs(code, ctx, s, WalkOne(Tree.Step(w), fuel, s.test, s.answers), s.pc + 1, fuel)
  {
    hide Reaches;
    PlacedAt(marks, s.pc, Works(w));
    assert Fits(code[s.pc], marks[s.pc]);
    var t := State(s.pc + 1, After(w), s.trace + Shown(w), s.answers);
    Stays(code, t);
    ReachesStep(code, s, t, t);
  }

  // The construct a branch names is the one its label counts to.
  lemma LabelTarget(code: seq<Ins>, marks: seq<Mark>, ctx: seq<Frame>, at: nat, conditional: bool, o: Goal) returns (k: nat)
    requires Sound(code, marks) && Context(code, marks, ctx, at) && at < |code| && marks[at] == Jumps(conditional, o)
    ensures k < |ctx| && ctx[k].opener == o
    ensures if conditional then code[at].BrIf? else code[at].Br?
    ensures Target(code, at, code[at].to) == Some(Landing(code, ctx[k].head))
  {
    hide Open, Opened, Landing;
    assert Open(code, marks, at + 1).Some?;
    OpenNext(code, marks, at);
    var open := Open(code, marks, at).value;
    k := |ctx| - 1 - code[at].to;
    assert Around(marks, ctx[k], open[k], Opened(code, at)[k], at);
  }

  lemma ExitRun(code: seq<Ins>, marks: seq<Mark>, ctx: seq<Frame>, conditional: bool, o: Goal, fuel: nat, s: State)
    requires Sound(code, marks) && Placed(marks, s.pc, [Jumps(conditional, o)]) && Context(code, marks, ctx, s.pc)
    ensures RunsAs(code, ctx, s, WalkOne(Exit(conditional, o), fuel, s.test, s.answers), s.pc + 1, fuel)
  {
    SoundLength(code, marks);
    hide Reaches, Lasts, Sound, Context, Landing, Target;
    PlacedAt(marks, s.pc, Jumps(conditional, o));
    var k := LabelTarget(code, marks, ctx, s.pc, conditional, o);
    assert s.trace + [] == s.trace;
    var left := Taken(s.test, s.answers);
    if conditional && left.None? {
      LastsStuck(code, s, fuel);
    } else {
      var b := !conditional || left.value.0;
      var t := State(if b then Landing(code, ctx[k].head) else s.pc + 1, Fresh, s.trace, if conditional then left.value.1 else s.answers);
      assert Move(code, s) == Some(t);
      Stays(code, t);
      ReachesStep(code, s, t, t);
    }
  }

  // What stands inside a construct, from its opening on.
  lemma {:induction false} EnterRun(code: seq<Ins>, marks: seq<Mark>, ctx: seq<Frame>, o: Opener, head: nat, body: seq<Tree>, fuel: nat, t: State)
    requires Sound(code, marks) && Placed(marks, t.pc, Flat(body)) && t.test == Fresh
    requires Context(code, marks, ctx + [Frame(o, head)], t.pc)
    ensures RunsAs(code, ctx + [Frame(o, head)], t, WalkAll(body, fuel, Fresh, t.answers), t.pc + |Flat(body)|, fuel)
    decreases fuel, body, 1
  {
    hide Sound, Context, RunsAs, Flat, WalkAll, Placed;
    RunAll(code, marks, ctx + [Frame(o, head)], body, fuel, t);
  }

  lemma {:induction false} InsideRun(code: seq<Ins>, marks: seq<Mark>, ctx: seq<Frame>, t: Tree, fuel: nat, s: State)
    requires t.Inside? && Sound(code, marks) && Placed(marks, s.pc, FlatOne(t)) && Context(code, marks, ctx, s.pc)
    ensures RunsAs(code, ctx, s, WalkOne(t, fuel, s.test, s.answers), s.pc + |FlatOne(t)|, fuel)
    decreases fuel, t, 1
  {
    hide Sound, Context, RunsAs, Flat, FlatOne, WalkAll, Placed, Move, Skips;
    var o, body, at := t.opener, t.body, s.pc;
    SoundLength(code, marks);
    InsidePlaced(marks, at, o, body);
    var end := at + 1 + |Flat(body)|;
    if o.kind.KLoop? && fuel == 0 {
      NoTime(code, ctx, s, end + 1);
    } else {
      var f, inner := Frame(o, at), Go(s, at + 1, Fresh);
      OpenMoves(code, marks, s, o);
      ContextEnters(code, marks, ctx, at, o);
      EnterRun(code, marks, ctx, o, at, body, fuel, inner);
      SkipAll(code, marks, body, at + 1);
      var b := WalkAll(body, fuel, Fresh, s.answers);
      EndMoves(code, marks, end, inner.trace + b.trace, b.test, b.answers);
      if b.way != Jump(o) {
        RunAround(code, ctx, f, s, inner, b, end, end + 1, fuel);
      } else {
        ContextLast(code, marks, ctx, f, at + 1);
        var k := OwnJump(code, ctx, f, inner, b, o, end, fuel);
        GoalLanding(code, marks, at, end, o);
        var back := State(Landing(code, at), Fresh, s.trace + b.trace, b.answers);
        ReachesStep(code, s, inner, back);
        if o.kind.KLoop? {
          RunOne(code, marks, ctx, t, fuel - 1, back);
          RunsBack(code, ctx, s, inner, back, b, WalkOne(t, fuel - 1, Fresh, b.answers), end + 1, fuel);
        } else {
          FallsTo(code, ctx, s, back, b, fuel);
        }
      }
    }
  }

  lemma NoTime(code: seq<Ins>, ctx: seq<Frame>, s: State, next: nat)
    ensures RunsAs(code, ctx, s, Walk(Spent, Fresh, [], s.answers), next, 0)
  {
  }

  lemma OpenMoves(code: seq<Ins>, marks: seq<Mark>, s: State, o: Goal)
    requires Sound(code, marks) && s.pc < |marks| && marks[s.pc] == Opens(o)
    ensures Move(code, s) == Some(Go(s, s.pc + 1, Fresh))
  {
    assert Fits(code[s.pc], marks[s.pc]);
  }

  lemma EndMoves(code: seq<Ins>, marks: seq<Mark>, end: nat, trace: seq<Event>, test: Test, answers: seq<bool>)
    requires Sound(code, marks) && end < |marks| && marks[end] == Closes
    ensures Move(code, State(end, test, trace, answers)) == Some(State(end + 1, Fresh, trace, answers))
  {
    assert Fits(code[end], marks[end]);
  }

  // No construct further out has the opener of the innermost one.
  lemma ContextLast(code: seq<Ins>, marks: seq<Mark>, ctx: seq<Frame>, f: Frame, at: nat)
    requires Context(code, marks, ctx + [f], at)
    ensures forall k: nat :: k < |ctx| ==> ctx[k].opener != f.opener
  {
    hide Open, Opened;
    var all := ctx + [f];
    forall k: nat | k < |ctx|
      ensures ctx[k].opener != f.opener
    {
      assert all[k].opener != all[|ctx|].opener;
    }
  }

  lemma OwnJump(code: seq<Ins>, ctx: seq<Frame>, f: Frame, t: State, w: Walk, o: Goal, next: nat, fuel: nat) returns (k: nat)
    requires RunsAs(code, ctx + [f], t, w, next, fuel) && w.way == Jump(o) && f.opener == o
    requires forall k: nat :: k < |ctx| ==> ctx[k].opener != f.opener
    ensures k == |ctx| && Reaches(code, t, State(Landing(code, f.head), Fresh, t.trace + w.trace, w.answers))
  {
    hide Reaches, Landing;
    var all := ctx + [f];
    k :| k < |all| && all[k].opener == o && Reaches(code, t, State(Landing(code, all[k].head), Fresh, t.trace + w.trace, w.answers));
    assert forall i: nat :: i < |ctx| ==> all[i] == ctx[i];
  }

  lemma GoalLanding(code: seq<Ins>, marks: seq<Mark>, at: nat, end: nat, o: Goal)
    requires Sound(code, marks) && at < end < |code| && marks[at] == Opens(o) && marks[end] == Closes && Skips(code, marks, at + 1, end)
    ensures Landing(code, at) == if o.kind.KLoop? then at else end + 1
  {
    hide Seek, Opened, Open;
    assert Fits(code[at], marks[at]);
    SeekEnd(code, marks, at + 1, end);
  }

  // A round of a loop, and the loop again with one round less.
  lemma RunsBack(code: seq<Ins>, ctx: seq<Frame>, s: State, inner: State, back: State, b: Walk, again: Walk, next: nat, fuel: nat)
    requires fuel > 0 && Move(code, s) == Some(inner) && inner.trace == s.trace
    requires Reaches(code, inner, back) && Reaches(code, s, back) && back.trace == s.trace + b.trace
    requires RunsAs(code, ctx, back, again, next, fuel - 1)
    ensures RunsAs(code, ctx, s, Also(b, again), next, fuel)
  {
    hide Reaches, Lands, Lasts, Move;
    match again.way
    case Fall =>
      ReachesJoin(code, s, back, State(next, again.test, back.trace + again.trace, again.answers));
      assert s.trace + b.trace + again.trace == s.trace + (b.trace + again.trace);
    case Jump(o) => LandsAfter(code, ctx, s, back, o, b.trace, again.trace, again.answers);
    case Spent =>
      LastsAfter(code, inner, back, fuel - 1);
      LastsStep(code, s, inner, fuel - 1);
  }

  lemma FallsTo(code: seq<Ins>, ctx: seq<Frame>, s: State, t: State, w: Walk, fuel: nat)
    requires Reaches(code, s, t) && t.test == Fresh && t.trace == s.trace + w.trace && t.answers == w.answers
    ensures RunsAs(code, ctx, s, Closed(w).(way := Fall), t.pc, fuel)
  {
    hide Reaches;
  }

  // ---- conditionals ----

  lemma {:induction false} ChoiceRun(code: seq<Ins>, marks: seq<Mark>, ctx: seq<Frame>, t: Tree, fuel: nat, s: State)
    requires t.Choice? && Sound(code, marks) && Placed(marks, s.pc, FlatOne(t)) && Context(code, marks, ctx, s.pc)
    ensures RunsAs(code, ctx, s, WalkOne(t, fuel, s.test, s.answers), s.pc + |FlatOne(t)|, fuel)
    decreases fuel, t, 1
  {
    hide Sound, Context, RunsAs, Flat, FlatOne, WalkAll, Placed, Move, Skips;
    SoundLength(code, marks);
    var left := Taken(s.test, s.answers);
    if left.None? {
      ChoiceStuck(code, marks, ctx, s, t, fuel);
    } else if t.turns {
      if left.value.0 { ThenRun(code, marks, ctx, t, fuel, s); } else { ElseRun(code, marks, ctx, t, fuel, s); }
    } else {
      ShortRun(code, marks, ctx, t, fuel, s);
    }
  }

  lemma ChoiceStuck(code: seq<Ins>, marks: seq<Mark>, ctx: seq<Frame>, s: State, t: Tree, fuel: nat)
    requires t.Choice? && Sound(code, marks) && Placed(marks, s.pc, FlatOne(t)) && Taken(s.test, s.answers).None?
    ensures RunsAs(code, ctx, s, WalkOne(t, fuel, s.test, s.answers), s.pc + |FlatOne(t)|, fuel)
  {
    hide Flat;
    ChoiceOpens(marks, s.pc, t);
    assert Fits(code[s.pc], marks[s.pc]);
    LastsStuck(code, s, fuel);
  }

  lemma ChoiceOpens(marks: seq<Mark>, at: nat, t: Tree)
    requires t.Choice? && Placed(marks, at, FlatOne(t))
    ensures at < |marks| && marks[at] == Opens(t.test)
  {
    hide Flat;
    assert marks[at..at + |FlatOne(t)|][0] == FlatOne(t)[0];
  }

  lemma {:induction false} ThenRun(code: seq<Ins>, marks: seq<Mark>, ctx: seq<Frame>, t: Tree, fuel: nat, s: State)
    requires t.Choice? && t.turns && Sound(code, marks) && Placed(marks, s.pc, FlatOne(t)) && Context(code, marks, ctx, s.pc)
    requires var left := Taken(s.test, s.answers); left.Some? && left.value.0
    ensures RunsAs(code, ctx, s, WalkOne(t, fuel, s.test, s.answers), s.pc + |FlatOne(t)|, fuel)
    decreases fuel, t, 0
  {
    hide Sound, Context, RunsAs, Flat, FlatOne, WalkAll, Placed, Move, Skips;
    SoundLength(code, marks);
    var at, rest := s.pc, Taken(s.test, s.answers).value.1;
    ChoicePlaced(marks, at, t.test, t.thn, t.els);
    var turn := at + 1 + |Flat(t.thn)|;
    var end := turn + 1 + |Flat(t.els)|;
    var inner := State(at + 1, Fresh, s.trace, rest);
    ThenMoves(code, marks, s, t.test);
    ContextEnters(code, marks, ctx, at, t.test);
    EnterRun(code, marks, ctx, t.test, at, t.thn, fuel, inner);
    SkipAll(code, marks, t.els, turn + 1);
    var b := WalkAll(t.thn, fuel, Fresh, rest);
    TurnMoves(code, marks, turn, end, s.trace + b.trace, b.test, b.answers);
    RunAround(code, ctx, Frame(t.test, at), s, inner, b, turn, end + 1, fuel);
  }

  lemma ThenMoves(code: seq<Ins>, marks: seq<Mark>, s: State, o: Tested)
    requires Sound(code, marks) && s.pc < |marks| && marks[s.pc] == Opens(o)
    requires var left := Taken(s.test, s.answers); left.Some? && left.value.0
    ensures Move(code, s) == Some(State(s.pc + 1, Fresh, s.trace, Taken(s.test, s.answers).value.1))
  {
    assert Fits(code[s.pc], marks[s.pc]);
  }

  lemma TurnMoves(code: seq<Ins>, marks: seq<Mark>, turn: nat, end: nat, trace: seq<Event>, test: Test, answers: seq<bool>)
    requires Sound(code, marks) && turn < end < |marks| && marks[turn] == Turns && marks[end] == Closes && Skips(code, marks, turn + 1, end)
    ensures Move(code, State(turn, test, trace, answers)) == Some(State(end + 1, Fresh, trace, answers))
  {
    hide Seek, Opened, Open;
    assert Fits(code[turn], marks[turn]);
    SeekEnd(code, marks, turn + 1, end);
  }

  lemma {:induction false} ElseRun(code: seq<Ins>, marks: seq<Mark>, ctx: seq<Frame>, t: Tree, fuel: nat, s: State)
    requires t.Choice? && t.turns && Sound(code, marks) && Placed(marks, s.pc, FlatOne(t)) && Context(code, marks, ctx, s.pc)
    requires var left := Taken(s.test, s.answers); left.Some? && !left.value.0
    ensures RunsAs(code, ctx, s, WalkOne(t, fuel, s.test, s.answers), s.pc + |FlatOne(t)|, fuel)
    decreases fuel, t, 0
  {
    hide Sound, Context, RunsAs, Flat, FlatOne, WalkAll, Placed, Move, Skips;
    SoundLength(code, marks);
    var at, rest := s.pc, Taken(s.test, s.answers).value.1;
    ChoicePlaced(marks, at, t.test, t.thn, t.els);
    var turn := at + 1 + |Flat(t.thn)|;
    var end := turn + 1 + |Flat(t.els)|;
    var inner := State(turn + 1, Fresh, s.trace, rest);
    SkipAll(code, marks, t.thn, at + 1);
    ElseMoves(code, marks, s, t.test, turn);
    ContextEnters(code, marks, ctx, at, t.test);
    ContextSkips(code, marks, ctx + [Frame(t.test, at)], at + 1, turn);
    ContextTurns(code, marks, ctx, turn, t.test, at);
    EnterRun(code, marks, ctx, t.test, at, t.els, fuel, inner);
    var b := WalkAll(t.els, fuel, Fresh, rest);
    EndMoves(code, marks, end, s.trace + b.trace, b.test, b.answers);
    RunAround(code, ctx, Frame(t.test, at), s, inner, b, end, end + 1, fuel);
  }

  lemma ElseMoves(code: seq<Ins>, marks: seq<Mark>, s: State, o: Tested, turn: nat)
    requires Sound(code, marks) && s.pc < turn < |marks| && marks[s.pc] == Opens(o) && marks[turn] == Turns && Skips(code, marks, s.pc + 1, turn)
    requires var left := Taken(s.test, s.answers); left.Some? && !left.value.0
    ensures Move(code, s) == Some(State(turn + 1, Fresh, s.trace, Taken(s.test, s.answers).value.1))
  {
    hide Seek, Opened, Open;
    assert Fits(code[s.pc], marks[s.pc]);
    SeekElse(code, marks, s.pc + 1, turn);
  }

  // A conditional without an else part.
  lemma {:induction false} ShortRun(code: seq<Ins>, marks: seq<Mark>, ctx: seq<Frame>, t: Tree, fuel: nat, s: State)
    requires t.Choice? && !t.turns && Sound(code, marks) && Placed(marks, s.pc, FlatOne(t)) && Context(code, marks, ctx, s.pc)
    requires Taken(s.test, s.answers).Some?
    ensures RunsAs(code, ctx, s, WalkOne(t, fuel, s.test, s.answers), s.pc + |FlatOne(t)|, fuel)
    decreases fuel, t, 0
  {
    hide Sound, Context, RunsAs, Flat, FlatOne, WalkAll, Placed, Move, Skips;
    SoundLength(code, marks);
    var at, left := s.pc, Taken(s.test, s.answers).value;
    NoTurn(t);
    ShortPlaced(marks, at, t.test, t.thn, t.els);
    var end := at + 1 + |Flat(t.thn)|;
    SkipAll(code, marks, t.thn, at + 1);
    if left.0 {
      var inner := State(at + 1, Fresh, s.trace, left.1);
      ThenMoves(code, marks, s, t.test);
      ContextEnters(code, marks, ctx, at, t.test);
      EnterRun(code, marks, ctx, t.test, at, t.thn, fuel, inner);
      var b := WalkAll(t.thn, fuel, Fresh, left.1);
      EndMoves(code, marks, end, s.trace + b.trace, b.test, b.answers);
      RunAround(code, ctx, Frame(t.test, at), s, inner, b, end, end + 1, fuel);
    } else {
      PassMoves(code, marks, s, t.test, end);
      var next := State(end + 1, Fresh, s.trace, left.1);
      Stays(code, next);
      ReachesStep(code, s, next, next);
      assert s.trace + [] == s.trace;
      FallsTo(code, ctx, s, next, Walk(Fall, Fresh, [], left.1), fuel);
    }
  }

  lemma NoTurn(t: Tree)
    requires t.Choice? && !t.turns
    ensures t == Choice(t.test, t.thn, false, t.els)
  {
  }

  lemma PassMoves(code: seq<Ins>, marks: seq<Mark>, s: State, o: Tested, end: nat)
    requires Sound(code, marks) && s.pc < end < |marks| && marks[s.pc] == Opens(o) && marks[end] == Closes && Skips(code, marks, s.pc + 1, end)
    requires var left := Taken(s.test, s.answers); left.Some? && !left.value.0
    ensures Move(code, s) == Some(State(end + 1, Fresh, s.trace, Taken(s.test, s.answers).value.1))
  {
    hide Seek, Opened, Open;
    assert Fits(code[s.pc], marks[s.pc]);
    SeekEnd(code, marks, s.pc + 1, end);
  }
}
