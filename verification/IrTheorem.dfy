// Meaning preservation for whole programs: the module that the compiler builds
// ends the way the run of the program ends.
module IrTheorem {
  import opened Wrappers
  import opened Syntax
  import opened Values
  import opened Semantics
  import opened IrMachine
  import opened IrCodegen
  import opened Pools
  import opened IrBrackets
  import opened IrRelation
  import opened IrSteps
  import opened IrSim
  import opened IrLink
  import opened Readings
  import opened ReadingsClean
  import opened ReadingsProgram
  import N = Interpreter

  function Context(prims: Prims, p: Program, library: seq<Function>): Ctx {
    Ctx(prims, Functions(p), Builtins(library), Ir, true)
  }

  function RunProgram(c: Ctx, fuel: nat, p: Program): Res {
    EvalStmts(c, fuel, p, Initial())
  }

  function Start(m: Module): Config
    requires m.functions != []
  {
    Run(Frame(0, 0, [], [], Nulls(m.functions[0].locals)), [], Nulls(|m.globals|), [])
  }

  // How the machine ends for each outcome of the top-level code.
  function Final(o: Outcome, g: seq<Value>, out: seq<string>): Config
    requires o.Norm? || o.Ret? || o.Thrown?
  {
    match o
    case Norm(_) => Halt(Null, g, out)
    case Ret(v) => Halt(v, g, out)
    case Thrown(_) => Trap(g, out)
  }

  lemma LinkedWorld(fns: Index, m: Module, p: Program, library: seq<Function>, prims: Prims)
    requires IsCompiled(fns, m, p, library) && prims.Valid()
    ensures Linked(World(Context(prims, p, library), Unit(fns, true), m))
  {
    hide GenBlock, GenMain;
    var w := World(Context(prims, p, library), Unit(fns, true), m);
    forall x ensures LinkedAt(w, x) {
      if x in fns { assert x in fns.Keys; }
      if x in w.c.funs {
        var d := w.c.funs[x];
        assert HasCode(fns, m, d);
        var ss, gs :| CompiledFrom(Unit(fns, false), m, d, fns[d.name], ss, gs);
        assert w.u.(top := false) == Unit(fns, false);
        assert CompiledFrom(w.u, m, d, fns[x], ss, gs);
      }
    }
  }

  // Function 0 of a compiled module is the code of the top level, followed by its return.
  lemma MainCode(fns: Index, m: Module, p: Program, library: seq<Function>) returns (strings: seq<string>, out: Emitted)
    requires IsCompiled(fns, m, p, library) && "__main" !in Functions(p)
    ensures GenStmts(Unit(fns, true), p, None, Env([map[]], [], strings, [])) == Some(out)
    ensures m.functions != [] && m.functions[0].code == out.code + [PushNull, Leave] && m.functions[0].locals == |out.env.locals|
    ensures out.env.strings <= m.strings && out.env.globals <= m.globals
  {
    hide GenStmts, HasCode;
    strings :| MainFrom(fns, m, p, strings);
    out := GenStmts(Unit(fns, true), p, None, Env([map[]], [], strings, [])).value;
  }

  lemma StartReady(w: World, p: Program, strings: seq<string>)
    requires Linked(w) && w.u.top && MainFrom(w.u.fns, w.m, p, strings) && w.u.fns["__main"] == 0
    ensures w.m.functions != []
    ensures var env := Env([map[]], [], strings, []);
      && GenStmts(w.u, p, None, env).Some?
      && w.m.functions[0].code == GenStmts(w.u, p, None, env).value.code + [PushNull, Leave]
      && Ready(w, None, env, Initial(), Start(w.m), GenStmts(w.u, p, None, env))
  {
    hide GenStmts, LinkedAt, Linked;
    assert w.c.mode.Ir? && w.c.prims.Valid() by { StartModes(w); }
    assert w.u == Unit(w.u.fns, true);
    var env := Env([map[]], [], strings, []);
    var out := GenStmts(w.u, p, None, env).value;
    assert w.m.functions[0].code[0..0 + |out.code|] == out.code;
    InitialRel(w);
  }

  lemma StartModes(w: World)
    requires Linked(w)
    ensures w.c.mode.Ir? && w.c.prims.Valid()
  {
  }

  lemma InitialRel(w: World)
    ensures Rel(w, Initial(), [map[]], Mem([], Nulls(|w.m.globals|), []))
    ensures forall locals :: Rel(w, Initial(), [map[]], Mem(locals, Nulls(|w.m.globals|), []))
  {
    var vis := Visible([map[]]);
    assert vis[0] == map[];
    forall x | x in w.m.globals ensures IndexOf(w.m.globals, x).Some? {
    }
  }

  // If the source run ends, so does the machine: with the same output, the same
  // result, and every global holding what the program's last binding of it left.
  lemma CompiledRuns(fns: Index, m: Module, p: Program, library: seq<Function>, prims: Prims, fuel: nat) returns (g: seq<Value>)
    requires IsCompiled(fns, m, p, library) && prims.Valid() && "__main" !in Functions(p)
    requires !RunProgram(Context(prims, p, library), fuel, p).o.Fail?
    ensures m.functions != []
    ensures var r := RunProgram(Context(prims, p, library), fuel, p);
      && (r.o.Norm? || r.o.Ret? || r.o.Thrown?)
      && GlobalsRel(m, r.st.globals, g)
      && Reach(m, prims, Start(m), Final(r.o, g, r.st.out))
  {
    hide GenStmts, EvalStmts, GenMain, LinkedAt, HasCode, Good, Segment, ScopesRel, GlobalsRel, Visible;
    var w := World(Context(prims, p, library), Unit(fns, true), m);
    LinkedWorld(fns, m, p, library, prims);
    var strings :| MainFrom(fns, m, p, strings);
    StartReady(w, p, strings);
    var env := Env([map[]], [], strings, []);
    var a := Start(m);
    var code := GenStmts(w.u, p, None, env).value.code;
    var mem := SimStmts(w, fuel, p, None, env, Initial(), a);
    g := mem.globals;
    var r := RunProgram(w.c, fuel, p);
    if r.o.Norm? {
      MainReturns(w, code, mem);
    }
  }

  // After the last statement the top-level code returns null.
  lemma MainReturns(w: World, code: seq<Instr>, mem: Mem)
    requires w.m.functions != [] && w.m.functions[0].code == code + [PushNull, Leave]
    requires Runs(w, Start(w.m), Next(Start(w.m), |code|, [], mem))
    ensures Runs(w, Start(w.m), Halt(Null, mem.globals, mem.out))
  {
    hide Runs;
    var a := Start(w.m);
    var b := Next(a, |code|, [], mem);
    DoPush(w, a, b, PushNull);
    DoLeave(w, a, Push(b, Null));
  }

  // The machine is deterministic, so that end is the only one.
  lemma CompiledRunsOnly(fns: Index, m: Module, p: Program, library: seq<Function>, prims: Prims, fuel: nat, final: Config)
    requires IsCompiled(fns, m, p, library) && prims.Valid() && "__main" !in Functions(p) && m.functions != []
    requires !RunProgram(Context(prims, p, library), fuel, p).o.Fail?
    requires Reach(m, prims, Start(m), final) && !final.Run?
    ensures var r := RunProgram(Context(prims, p, library), fuel, p);
      && (r.o.Norm? || r.o.Ret? || r.o.Thrown?)
      && GlobalsRel(m, r.st.globals, final.globals)
      && final == Final(r.o, final.globals, r.st.out)
  {
    hide EvalStmts, IsCompiled, GlobalsRel, Reach;
    var g := CompiledRuns(fns, m, p, library, prims, fuel);
    var r := RunProgram(Context(prims, p, library), fuel, p);
    FinalUnique(m, prims, Start(m), Final(r.o, g, r.st.out), final);
  }

  // From the interpreter to the machine: on a tame run of a program without `main`, the compiled module ends
  // with the interpreter's output, traps exactly when the interpreter ends by an uncaught throw, and returns null.
  lemma CompiledMatchesSource(fns: Index, m: Module, p: Program, library: seq<Function>, prims: Prims, fuel: nat, k: Rules)
      returns (final: Config)
    requires IsCompiled(fns, m, p, library) && prims.Valid() && "__main" !in Functions(p) && N.MAIN !in Functions(p)
    requires k.mode.Ir? && Apart(k, p, Builtins(library)) && TameRun(prims, k, p, fuel)
    requires !N.Execute(prims, fuel, p).o.Fail?
    ensures m.functions != [] && Reach(m, prims, Start(m), final) && !final.Run?
    ensures var r := N.Execute(prims, fuel, p);
      && final.out == r.st.out && (r.o.Thrown? <==> final.Trap?) && (final.Halt? ==> final.v == Null)
    ensures forall other | Reach(m, prims, Start(m), other) && !other.Run? :: other == final
  {
    hide EvalStmts, IsCompiled, GlobalsRel, Reach, TameRun, Apart, N.Execute;
    ProgramSame(prims, k, p, Builtins(library), fuel);
    var g := CompiledRuns(fns, m, p, library, prims, fuel);
    var r := RunProgram(Context(prims, p, library), fuel, p);
    final := Final(r.o, g, r.st.out);
    forall other | Reach(m, prims, Start(m), other) && !other.Run? ensures other == final {
      FinalUnique(m, prims, Start(m), final, other);
    }
  }

  // For clean programs no condition on the run is left.
  lemma CleanMatchesSource(fns: Index, m: Module, p: Program, library: seq<Function>, prims: Prims, fuel: nat, n: Names)
      returns (final: Config)
    requires IsCompiled(fns, m, p, library) && prims.Valid() && "__main" !in Functions(p) && N.MAIN !in Functions(p)
    requires n.rules.mode.Ir? && Apart(n.rules, p, Builtins(library)) && CleanProgram(n, p)
    requires !N.Execute(prims, fuel, p).o.Fail?
    ensures m.functions != [] && Reach(m, prims, Start(m), final) && !final.Run?
    ensures var r := N.Execute(prims, fuel, p);
      && final.out == r.st.out && (r.o.Thrown? <==> final.Trap?) && (final.Halt? ==> final.v == Null)
  {
    hide IsCompiled, Reach, CleanProgram, TameRun, Apart, N.Execute;
    CleanRuns(prims, n, p, fuel);
    final := CompiledMatchesSource(fns, m, p, library, prims, fuel, n.rules);
  }
}
