// Every function that the compiler emits performs the acts of its source, loop after loop, in the order of compiled code.
module IrFlowTheorem {
  import opened Wrappers
  import opened IrShape
  import opened IrFlow
  import opened IrTree
  import opened IrTreeRun
  import opened IrFlowMachine
  import opened IrFlowRun
  import opened IrFlowTree
  import opened IrLabels
  import Names = IrNames

  function Start(answers: seq<bool>): State {
    State(0, Fresh, [], answers)
  }

  lemma TwiceCounts(marks: seq<Mark>, i: nat, j: nat)
    requires i < j < |marks| && marks[i] == marks[j]
    ensures multiset(marks)[marks[i]] >= 2
  {
    assert marks == marks[..j] + marks[j..];
    assert marks[..j][i] == marks[i] && marks[j..][0] == marks[j];
    assert marks[i] in multiset(marks[..j]) && marks[i] in multiset(marks[j..]);
  }

  lemma SoundCode(code: seq<Ins>, body: Node)
    requires Realizes(code, body)
    ensures Sound(code, Shape(body, None, 0).marks)
  {
    hide Shape, Read, Take, Fits;
    var marks := Shape(body, None, 0).marks;
    ReadLength(code, marks);
    forall i: nat | i <= |code|
      ensures Open(code, marks, i).Some? && (i < |code| ==> Fits(code[i], marks[i]))
    {
      ReadsAll(code, marks, i);
    }
    forall i: nat, j: nat | i < j < |marks| && marks[i].Opens? && marks[j].Opens?
      ensures marks[i] != marks[j]
    {
      if marks[i] == marks[j] {
        TwiceCounts(marks, i, j);
        Names.NamesUnique(body, None, 0, marks[i].opener);
      }
    }
  }

  lemma NoContext(code: seq<Ins>, marks: seq<Mark>)
    requires Sound(code, marks)
    ensures Context(code, marks, [], 0)
  {
    assert Read(code[..0], marks[..0]) == Some([]);
  }

  // A run of the source that ends is the machine's run to the end of the code; where answers or rounds do not suffice,
  // the machine does not reach the end within as many steps.
  lemma CompiledFollows(code: seq<Ins>, body: Node, fuel: nat, answers: seq<bool>)
    requires Realizes(code, body) && !Stray(body, false)
    ensures var r := Flow(true, body, fuel, answers);
      && (r.end.Normal? ==> Reaches(code, Start(answers), State(|code|, Fresh, r.trace, r.answers)))
      && (r.end.Used? ==> Lasts(code, Start(answers), fuel))
      && (r.end.Normal? || r.end.Used?)
  {
    hide Realizes, Flow, Grow, Shape, Stray, WalkAll, Reaches, Lasts, Sound, Context, Flat;
    var marks, ts := Shape(body, None, 0).marks, Grow(body, None, 0);
    SoundCode(code, body);
    SoundLength(code, marks);
    SourceWalk(body, None, 0, fuel, answers);
    FlatGrow(body, None, 0);
    assert marks[0..0 + |marks|] == marks;
    NoContext(code, marks);
    RunAll(code, marks, [], ts, fuel, Start(answers));
    var r := Flow(true, body, fuel, answers);
    assert [] + r.trace == r.trace;
  }

  // Whatever run of the machine ends is such a run of the source.
  lemma CompiledEnds(code: seq<Ins>, body: Node, answers: seq<bool>, t: State)
    requires Realizes(code, body) && !Stray(body, false)
    requires Reaches(code, Start(answers), t) && t.pc >= |code|
    ensures t.pc == |code| && exists fuel: nat :: Flow(true, body, fuel, answers) == Run(Normal, t.trace, t.answers)
  {
    hide Realizes, Flow, Stray;
    var n: nat :| Moves(code, Start(answers), n) == Some(t);
    CompiledFollows(code, body, n + 1, answers);
    var r := Flow(true, body, n + 1, answers);
    EndUnique(code, Start(answers), t, if r.end.Normal? then State(|code|, Fresh, r.trace, r.answers) else t);
  }
}
