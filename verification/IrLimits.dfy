// Programs on which the compiled module does not do what the interpreter does, one for each
// construct that a tame run must not meet.
module IrLimits {
  import opened Wrappers
  import opened Syntax
  import opened Values
  import opened Semantics
  import opened IrMachine
  import opened IrCodegen
  import opened IrLink
  import opened IrTheorem
  import N = Interpreter

  // The interpreter prints `source`, the compiled module ends and prints `compiled`.
  ghost predicate Prints(m: Module, p: Program, prims: Prims, source: seq<string>, compiled: seq<string>) {
    && (exists fuel: nat :: N.Execute(prims, fuel, p).o.Norm? && N.Execute(prims, fuel, p).st.out == source)
    && m.functions != []
    && (exists final :: Reach(m, prims, Start(m), final) && final.Halt? && final.out == compiled)
  }

  lemma PrintsBoth(fns: Index, m: Module, p: Program, library: seq<Function>, prims: Prims, fuel: nat, source: seq<string>, compiled: seq<string>)
    requires IsCompiled(fns, m, p, library) && prims.Valid() && "__main" !in Functions(p)
    requires N.Execute(prims, fuel, p).o.Norm? && N.Execute(prims, fuel, p).st.out == source
    requires var r := RunProgram(Context(prims, p, library), fuel, p); r.o.Norm? && r.st.out == compiled
    ensures Prints(m, p, prims, source, compiled)
  {
    hide IsCompiled, N.Execute, Reach, RunProgram, Functions;
    var g := CompiledRuns(fns, m, p, library, prims, fuel);
    var final := Halt(Null, g, compiled);
    assert Reach(m, prims, Start(m), final);
  }

  // ---- a block without tail ----

  // output { let x = 5 }
  function Tailless(): Program {
    [Output(BlockExpr(Block([Let("x", Lit(Int(5)))], None)))]
  }

  lemma TaillessDiffers(fns: Index, m: Module, library: seq<Function>, prims: Prims)
    requires IsCompiled(fns, m, Tailless(), library) && prims.Valid()
    ensures Prints(m, Tailless(), prims, [prims.show(Int(5))], [prims.show(Null)])
  {
    hide IsCompiled;
    assert Tailless()[..0] == [];
    TaillessSource(prims);
    TaillessCompiled(Context(prims, Tailless(), library));
    PrintsBoth(fns, m, Tailless(), library, prims, 0, [prims.show(Int(5))], [prims.show(Null)]);
  }

  lemma TaillessSource(prims: Prims)
    ensures var r := N.Execute(prims, 0, Tailless()); r.o.Norm? && r.st.out == [prims.show(Int(5))]
  {
    var p := Tailless();
    var b := p[0].value.block;
    assert p[..0] == [] && p[1..] == [] && b.stmts[1..] == [];
    var c := N.Ctx(prims, map[], map[]);
    assert N.Code(p) == p;
    var s := N.PushScope(N.Initial());
    assert N.EvalStmt(c, 0, b.stmts[0], s).o == Norm(Int(5));
    assert N.EvalStmts(c, 0, b.stmts, Null, s).o == Norm(Int(5));
    assert N.EvalBlock(c, 0, b, N.Initial()).o == Norm(Int(5));
    assert N.EvalExpr(c, 0, p[0].value, N.Initial()).o == Norm(Int(5));
    assert N.EvalStmt(c, 0, p[0], N.Initial()).st.out == [prims.show(Int(5))];
  }

  lemma TaillessCompiled(c: Ctx)
    requires c.mode.Ir?
    ensures var r := RunProgram(c, 0, Tailless()); r.o.Norm? && r.st.out == [c.prims.show(Null)]
  {
    var p := Tailless();
    var b := p[0].value.block;
    assert p[1..] == [] && b.stmts[1..] == [];
    var s := PushScope(Initial());
    assert EvalStmt(c, 0, b.stmts[0], s).o.Norm?;
    assert EvalStmts(c, 0, b.stmts, s).o == Norm(Null);
    assert EvalBlock(c, 0, b, Initial()).o == Norm(Null);
    assert EvalExpr(c, 0, p[0].value, Initial()).o == Norm(Null);
    assert EvalStmt(c, 0, p[0], Initial()).st.out == [c.prims.show(Null)];
  }

  // ---- a break in the condition of a loop ----

  // while true { while { break } { }  output 1  break }
  function Inner(): Stmt {
    While(BlockExpr(Block([Break], None)), Block([], None))
  }

  function Outer(): Block {
    Block([Inner(), Output(Lit(Int(1))), Break], None)
  }

  function ConditionBreak(): Program {
    [While(Lit(Bool(true)), Outer())]
  }

  lemma ConditionBreakDiffers(fns: Index, m: Module, library: seq<Function>, prims: Prims)
    requires IsCompiled(fns, m, ConditionBreak(), library) && prims.Valid()
    ensures Prints(m, ConditionBreak(), prims, [], [prims.show(Int(1))])
  {
    hide IsCompiled;
    assert ConditionBreak()[..0] == [];
    ConditionBreakSource(prims);
    ConditionBreakCompiled(Context(prims, ConditionBreak(), library));
    PrintsBoth(fns, m, ConditionBreak(), library, prims, 1, [], [prims.show(Int(1))]);
  }

  lemma ConditionBreakSource(prims: Prims)
    ensures var r := N.Execute(prims, 1, ConditionBreak()); r.o.Norm? && r.st.out == []
  {
    var p := ConditionBreak();
    assert p[..0] == [] && p[1..] == [];
    var c := N.Ctx(prims, map[], map[]);
    assert N.Code(p) == p;
    var s0 := N.Initial();
    var s := N.PushScope(s0);
    assert N.EvalStmts(c, 1, [Break], Null, N.PushScope(s)).o == Brk;
    assert N.EvalExpr(c, 1, Inner().cond, s).o == Brk;
    assert N.EvalStmt(c, 1, Inner(), s).o == Brk && N.EvalStmt(c, 1, Inner(), s).st.out == [];
    assert N.EvalStmts(c, 1, Outer().stmts, Null, s).o == Brk;
    assert N.EvalBlock(c, 1, Outer(), s0).o == Brk;
    assert N.EvalExpr(c, 1, p[0].cond, s0) == N.Res(Norm(Bool(true)), s0);
    assert N.EvalStmt(c, 1, p[0], s0).o == Norm(Null);
  }

  lemma ConditionBreakCompiled(c: Ctx)
    requires c.mode.Ir?
    ensures var r := RunProgram(c, 1, ConditionBreak()); r.o.Norm? && r.st.out == [c.prims.show(Int(1))]
  {
    var p := ConditionBreak();
    assert p[1..] == [];
    var s0 := Initial();
    var s := PushScope(s0);
    assert EvalStmts(c, 1, [Break], PushScope(s)).o == Brk;
    assert PopScope(PushScope(s)) == s;
    assert EvalExpr(c, 1, Inner().cond, s) == Res(Brk, s);
    assert EvalStmt(c, 1, Inner(), s) == Res(Norm(Null), s);
    var ss := Outer().stmts;
    var s1 := s.(out := [c.prims.show(Int(1))]);
    assert ss[1..][1..] == ss[2..] && ss[2..][1..] == [];
    assert EvalStmts(c, 1, ss[2..], s1) == Res(Brk, s1);
    assert EvalStmt(c, 1, ss[1], s) == Res(Norm(Int(1)), s1);
    assert EvalStmts(c, 1, ss[1..], s) == Res(Brk, s1);
    assert EvalBlock(c, 1, Outer(), s0).o == Brk;
    assert EvalExpr(c, 1, p[0].cond, s0) == Res(Norm(Bool(true)), s0);
    assert EvalStmt(c, 1, p[0], s0).o == Norm(Null);
  }

  // ---- a program with `main` ----

  // func main() { output 1 }
  function MainOnly(): Program {
    [FnDef(MainDecl())]
  }

  function MainDecl(): FnDecl {
    FnDecl(N.MAIN, [], Block([Output(Lit(Int(1)))], None))
  }

  lemma MainDiffers(fns: Index, m: Module, library: seq<Function>, prims: Prims)
    requires IsCompiled(fns, m, MainOnly(), library) && prims.Valid()
    ensures Prints(m, MainOnly(), prims, [prims.show(Int(1))], [])
  {
    hide IsCompiled;
    assert MainOnly()[..0] == [];
    MainSource(prims);
    assert MainOnly()[1..] == [];
    PrintsBoth(fns, m, MainOnly(), library, prims, 0, [prims.show(Int(1))], []);
  }

  lemma MainSource(prims: Prims)
    ensures var r := N.Execute(prims, 0, MainOnly()); r.o.Norm? && r.st.out == [prims.show(Int(1))]
  {
    var p := MainOnly();
    assert p[..0] == [] && p[1..] == [];
    var c := N.Ctx(prims, map[N.MAIN := MainDecl()], map[]);
    assert Functions(p) == c.funs;
    assert N.Declarations(p) == [];
    var body := MainDecl().body;
    var s := N.Entry(c, MainDecl(), [], N.Initial());
    assert body.stmts[1..] == [];
    assert N.EvalStmt(c, 0, body.stmts[0], s) == N.Res(Norm(Int(1)), s.(out := [prims.show(Int(1))]));
    assert N.EvalBody(c, 0, body, s) == N.Res(Norm(Int(1)), s.(out := [prims.show(Int(1))]));
  }

  // ---- a function that reads a top-level variable ----

  // let x = 1; x = 2; func f() { x } output f()
  function Stale(): Program {
    [Let("x", Lit(Int(1))), Assign("x", Lit(Int(2))), FnDef(ReadDecl()), Output(Call("f", []))]
  }

  function ReadDecl(): FnDecl {
    FnDecl("f", [], Block([], Some(Var("x"))))
  }

  lemma StaleDiffers(fns: Index, m: Module, library: seq<Function>, prims: Prims)
    requires IsCompiled(fns, m, Stale(), library) && prims.Valid() && "x" !in Builtins(library)
    ensures Prints(m, Stale(), prims, [prims.show(Int(2))], [prims.show(Int(1))])
  {
    hide IsCompiled;
    StaleFunctions();
    StaleSource(prims);
    StaleCompiled(Context(prims, Stale(), library));
    PrintsBoth(fns, m, Stale(), library, prims, 1, [prims.show(Int(2))], [prims.show(Int(1))]);
  }

  lemma StaleFunctions()
    ensures Functions(Stale()) == map["f" := ReadDecl()]
  {
    var p := Stale();
    assert p[..3][..2] == p[..2] && p[..2][..1] == p[..1] && p[..1][..0] == [];
    assert Functions(p[..1]) == map[];
    assert Functions(p[..2]) == map[];
    assert Functions(p[..3]) == map["f" := ReadDecl()];
  }

  lemma StaleSource(prims: Prims)
    ensures var r := N.Execute(prims, 1, Stale()); r.o.Norm? && r.st.out == [prims.show(Int(2))]
  {
    var p := Stale();
    var c := N.Ctx(prims, map["f" := ReadDecl()], map[]);
    StaleFunctions();
    StaleCode();
    var q := [p[0], p[1], p[3]];
    var s0 := N.Initial();
    var s1 := N.State([N.Scope(map["x" := Int(1)], {})], []);
    var s2 := N.State([N.Scope(map["x" := Int(2)], {})], []);
    assert N.Bound(N.Scope(map[], {}), "x", Int(1)) == s1.scopes[0];
    assert N.EvalStmt(c, 1, q[0], s0) == N.Res(Norm(Int(1)), s1);
    assert N.Find(s1.scopes, "x") == Some(0);
    assert s1.scopes[0].vars["x" := Int(2)] == s2.scopes[0].vars;
    assert N.EvalStmt(c, 1, q[1], s1) == N.Res(Norm(Int(2)), s2);
    StaleCall(c, s2);
    var out := [prims.show(Int(2))];
    assert N.EvalStmt(c, 1, q[2], s2) == N.Res(Norm(Int(2)), s2.(out := out));
    assert q[1..][1..] == q[2..] && q[2..][1..] == [];
    assert N.EvalStmts(c, 1, q[2..], Int(2), s2) == N.Res(Norm(Int(2)), s2.(out := out));
    assert N.EvalStmts(c, 1, q[1..], Int(1), s1) == N.Res(Norm(Int(2)), s2.(out := out));
  }

  lemma StaleCode()
    ensures var p := Stale(); N.Code(p) == [p[0], p[1], p[3]]
  {
    var p := Stale();
    assert p[1..][1..] == p[2..] && p[2..][1..] == p[3..] && p[3..][1..] == [];
    assert N.Code(p[3..]) == [p[3]];
    assert N.Code(p[2..]) == [p[3]];
    assert N.Code(p[1..]) == [p[1], p[3]];
  }

  lemma StaleCall(c: N.Ctx, s: N.State)
    requires c.funs == map["f" := ReadDecl()] && c.captured == map[] && s == N.State([N.Scope(map["x" := Int(2)], {})], [])
    ensures N.EvalExpr(c, 1, Call("f", []), s) == N.Res(Norm(Int(2)), s)
  {
    var e := N.Entry(c, ReadDecl(), [], s);
    assert N.Find(e.scopes, "x") == Some(0) by { assert e.scopes[..1] == s.scopes; assert N.Find(s.scopes, "x") == Some(0); }
    assert N.EvalExpr(c, 0, Var("x"), e) == N.Res(Norm(Int(2)), e);
    assert N.EvalStmts(c, 0, [], Null, e) == N.Res(Norm(Null), e);
    assert N.EvalBody(c, 0, ReadDecl().body, e) == N.Res(Norm(Int(2)), e);
    assert N.Back(e, s) == s;
    assert N.EvalArgs(c, 1, [], s) == N.ArgsRes(Norm(Null), [], s);
  }

  lemma StaleCompiled(c: Ctx)
    requires c.mode.Ir? && c.top && c.funs == map["f" := ReadDecl()] && "x" !in c.builtins
    ensures var r := RunProgram(c, 1, Stale()); r.o.Norm? && r.st.out == [c.prims.show(Int(1))]
  {
    var p := Stale();
    var s0 := Initial();
    var g := map["x" := Int(1)];
    var s1, s2 := State([map["x" := Int(1)]], g, []), State([map["x" := Int(2)]], g, []);
    assert s0.scopes[0]["x" := Int(1)] == g && s0.globals["x" := Int(1)] == g;
    assert EvalStmt(c, 1, p[0], s0) == Res(Norm(Int(1)), s1);
    assert Innermost(s1.scopes, "x") == Some(0);
    assert s1.scopes[0]["x" := Int(2)] == s2.scopes[0];
    assert EvalStmt(c, 1, p[1], s1) == Res(Norm(Int(2)), s2);
    assert EvalStmt(c, 1, p[2], s2) == Res(Norm(Null), s2);
    StaleGlobal(c, s2);
    var s3 := s2.(out := [c.prims.show(Int(1))]);
    assert EvalStmt(c, 1, p[3], s2) == Res(Norm(Int(1)), s3);
    assert p[1..][1..] == p[2..] && p[2..][1..] == p[3..] && p[3..][1..] == [];
    assert EvalStmts(c, 1, p[3..], s2) == Res(Norm(Null), s3);
    assert EvalStmts(c, 1, p[2..], s2) == Res(Norm(Null), s3);
    assert EvalStmts(c, 1, p[1..], s1) == Res(Norm(Null), s3);
  }

  lemma StaleGlobal(c: Ctx, s: State)
    requires c.mode.Ir? && c.funs == map["f" := ReadDecl()] && "x" !in c.builtins && s.globals == map["x" := Int(1)]
    ensures EvalExpr(c, 1, Call("f", []), s) == Res(Norm(Int(1)), s)
  {
    var d := c.(top := false);
    var e := State([map[]], s.globals, s.out);
    var e' := PushScope(e);
    assert e'.scopes[..1] == [map[]] && e'.scopes[..1][..0] == [];
    assert Innermost(e'.scopes, "x") == None;
    assert EvalExpr(d, 0, Var("x"), e') == Res(Norm(Int(1)), e');
    assert EvalStmts(d, 0, [], e') == Res(Norm(Null), e');
    assert EvalBody(d, 0, ReadDecl().body, e') == Res(Norm(Int(1)), e');
    assert PopScope(e') == e;
    assert EvalArgs(c, 1, [], s) == ArgsRes(Norm(Null), [], s);
  }

  // ---- a continue in a do-while loop ----

  // do { output null  continue } while false
  function Restart(): Program {
    [DoWhile(Block([Output(Lit(Null)), Continue], None), Lit(Bool(false)))]
  }

  function RestartCode(): seq<Instr> {
    [OpenBlock, OpenLoop, PushNull, Print, Br(0), PushBool(false), BoolNot, BrIf(1), Br(0), End, End]
  }

  lemma RestartGenerated(u: Unit, env: Env)
    requires env.scopes != []
    ensures GenStmts(u, Restart(), None, env) == Some(Emitted(RestartCode(), env))
  {
    var p := Restart();
    var body := p[0].body;
    var inner := Enter(env);
    assert p[1..] == [] && body.stmts[1..] == [Continue] && [Continue][1..] == [];
    assert [PushNull] + [Print] == [PushNull, Print] && [Br(0)] + [] == [Br(0)];
    assert GenExpr(u, Lit(Null), Some(0), inner) == Some(Emitted([PushNull], inner));
    assert GenStmt(u, body.stmts[0], Some(0), inner) == Some(Emitted([PushNull, Print], inner));
    assert GenStmts(u, [Continue], Some(0), inner) == Some(Emitted([Br(0)], inner));
    assert [PushNull, Print] + [Br(0)] == [PushNull, Print, Br(0)];
    assert GenStmts(u, body.stmts, Some(0), inner) == Some(Emitted([PushNull, Print, Br(0)], inner));
    RestartLoop(u, env);
    assert RestartCode() + [] == RestartCode();
  }

  lemma RestartLoop(u: Unit, env: Env)
    requires env.scopes != []
    requires GenStmts(u, Restart()[0].body.stmts, Some(0), Enter(env)) == Some(Emitted([PushNull, Print, Br(0)], Enter(env)))
    ensures GenStmt(u, Restart()[0], None, env) == Some(Emitted(RestartCode(), env))
  {
    hide GenStmts, Visible, Grows, Good;
    var body := Restart()[0].body;
    var code := [PushNull, Print, Br(0)];
    assert Exit(Enter(env)) == env && code + [] == code;
    assert GenInner(u, body, Some(0), Enter(env)) == Some(Emitted(code, Enter(env)));
    assert GenBody(u, body, Some(0), env) == Some(Emitted(code, env));
    assert GenExpr(u, Lit(Bool(false)), Some(0), env) == Some(Emitted([PushBool(false)], env));
    assert InLoop(code + [PushBool(false)] + [BoolNot, BrIf(1), Br(0)]) == RestartCode();
  }

  // The interpreter tests the condition after the `continue` and stops; the compiled module
  // starts the body again for ever.
  lemma RestartNeverEnds(fns: Index, m: Module, library: seq<Function>, prims: Prims, n: nat)
    requires IsCompiled(fns, m, Restart(), library) && prims.Valid()
    ensures var r := N.Execute(prims, 1, Restart()); r.o.Norm? && r.st.out == [prims.show(Null)]
    ensures m.functions != [] && Steps(m, prims, n, Start(m)).Run?
  {
    hide IsCompiled, GenStmts, Steps, N.Execute;
    assert Restart()[..0] == [];
    RestartSource(prims);
    var strings, out := MainCode(fns, m, Restart(), library);
    RestartGenerated(Unit(fns, true), Env([map[]], [], strings, []));
    RestartSpins(m, prims, n, 0, []);
  }

  lemma RestartSource(prims: Prims)
    ensures var r := N.Execute(prims, 1, Restart()); r.o.Norm? && r.st.out == [prims.show(Null)]
  {
    var p := Restart();
    assert p[..0] == [] && p[1..] == [];
    var c := N.Ctx(prims, map[], map[]);
    assert N.Code(p) == p;
    var s0 := N.Initial();
    var s := N.PushScope(s0);
    var s1 := s.(out := [prims.show(Null)]);
    var ss := p[0].body.stmts;
    assert ss[1..] == [Continue];
    assert N.EvalStmt(c, 1, ss[0], s) == N.Res(Norm(Null), s1);
    assert N.EvalStmts(c, 1, [Continue], Null, s1) == N.Res(Cont, s1);
    assert N.EvalBlock(c, 1, p[0].body, s0).o == Cont;
    assert N.EvalStmt(c, 1, p[0], s0).o == Norm(Null);
  }

  // The places the machine passes, starting with the entry of the program.
  function Spin(m: Module, i: nat, out: seq<string>): Config
    requires m.functions != [] && i <= 4
  {
    var outer, loop := Label(11, 0, 0), Label(1, 0, 0);
    Run(Frame(0, i, if i == 3 then [Null] else [], if i == 0 then [] else if i == 1 then [outer] else [outer, loop],
              Nulls(m.functions[0].locals)), [], Nulls(|m.globals|), out)
  }

  lemma SpinStep(m: Module, prims: Prims, i: nat, out: seq<string>)
    requires m.functions != [] && m.functions[0].code == RestartCode() + [PushNull, Leave] && i <= 4
    ensures Step(m, prims, Spin(m, i, out))
         == if i == 3 then Spin(m, 4, out + [prims.show(Null)]) else if i == 4 then Spin(m, 1, out) else Spin(m, i + 1, out)
  {
    if i == 0 { SpinEnd(); }
  }

  lemma SpinEnd()
    ensures FindEnd(RestartCode() + [PushNull, Leave], 1, 0) == 10
  {
    var code := RestartCode() + [PushNull, Leave];
    assert FindEnd(code, 10, 0) == 10;
    assert FindEnd(code, 9, 1) == 10;
    assert FindEnd(code, 8, 1) == 10;
    assert FindEnd(code, 7, 1) == 10;
    assert FindEnd(code, 6, 1) == 10;
    assert FindEnd(code, 5, 1) == 10;
    assert FindEnd(code, 4, 1) == 10;
    assert FindEnd(code, 3, 1) == 10;
  }

  lemma {:induction false} RestartSpins(m: Module, prims: Prims, n: nat, i: nat, out: seq<string>)
    requires m.functions != [] && m.functions[0].code == RestartCode() + [PushNull, Leave] && i <= 4
    ensures Steps(m, prims, n, Spin(m, i, out)).Run?
    decreases n
  {
    hide Step;
    if n > 0 {
      SpinStep(m, prims, i, out);
      if i == 3 {
        RestartSpins(m, prims, n - 1, 4, out + [prims.show(Null)]);
      } else {
        RestartSpins(m, prims, n - 1, if i == 4 then 1 else i + 1, out);
      }
    }
  }
}
