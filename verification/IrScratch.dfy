// The one name a program must not use: a variable called like the compiler's
// scratch local shares its slot, and the next `??` overwrites it.
module IrScratch {
  import opened Wrappers
  import opened Syntax
  import opened Values
  import opened Semantics
  import opened IrMachine
  import opened IrCodegen
  import opened IrRelation
  import opened Pools
  import opened IrLink
  import opened IrTheorem
  import N = Interpreter

  // ---- one write of the scratch local ----

  // Of the variables visible by name, a write of the scratch local keeps every one but a variable of its
  // own name, and that one if and only if the value written is the one it has.
  lemma ScratchWrite(ss: seq<Scope>, env: Env, locals: seq<Value>, v: Value)
    requires Good(env) && ScopesRel(ss, env.scopes, locals)
    requires Innermost(env.scopes, TEMP).Some? && TempSlot(env) < |locals|
    ensures Innermost(ss, TEMP) == Innermost(env.scopes, TEMP)
    ensures forall j, x | 0 <= j < |ss| && x in ss[j] && !(j == Innermost(ss, TEMP).value && x == TEMP) ::
              env.scopes[j][x] < |locals| && locals[TempSlot(env) := v][env.scopes[j][x]] == ss[j][x]
    ensures ScopesRel(ss, env.scopes, locals[TempSlot(env) := v]) <==> v == ss[Innermost(ss, TEMP).value][TEMP]
  {
    SameInnermost(ss, env.scopes, TEMP);
    var i := Innermost(env.scopes, TEMP).value;
    OtherSlots(env, i);
    hide Good, Innermost;
    var t := env.scopes[i][TEMP];
    assert TEMP in ss[i] && locals[t] == ss[i][TEMP];
    if v == locals[t] {
      assert locals[t := v] == locals;
    } else {
      assert locals[t := v][env.scopes[i][TEMP]] != ss[i][TEMP];
    }
  }

  lemma OtherSlots(env: Env, i: nat)
    requires Good(env) && i < |env.scopes| && TEMP in env.scopes[i]
    ensures forall j, x | 0 <= j < |env.scopes| && x in env.scopes[j] && !(j == i && x == TEMP) :: env.scopes[j][x] != env.scopes[i][TEMP]
  {
    var t := env.scopes[i][TEMP];
    forall j, x | 0 <= j < |env.scopes| && x in env.scopes[j] && !(j == i && x == TEMP)
      ensures env.scopes[j][x] != t
    {
      assert env.locals[env.scopes[j][x]] == x && env.locals[t] == TEMP;
    }
  }

  // ---- a program that prints another value ----

  // let __temp = 1; 2 ?? null; output __temp
  function Clash(): Program {
    [Let(TEMP, Lit(Int(1))), ExprStmt(Coalesce(Lit(Int(2)), Lit(Null))), Output(Var(TEMP))]
  }

  function ClashCode(): seq<Instr> {
    [PushI64(1), LocalSet(0), LocalGet(0), GlobalSet(0),
     PushI64(2), LocalSet(0), LocalGet(0), GetTag, PushI64(0), I64Eq, OpenIf, PushNull, Else, LocalGet(0), End, Drop,
     LocalGet(0), Print]
  }

  // The let takes slot 0, and so does the scratch local.
  lemma ClashGenerated(fns: map<string, nat>, strings: seq<string>)
    ensures GenStmts(Unit(fns, true), Clash(), None, Env([map[]], [], strings, []))
         == Some(Emitted(ClashCode(), Env([map[TEMP := 0]], [TEMP], strings, [TEMP])))
  {
    hide GenStmt;
    var u := Unit(fns, true);
    var e1 := Env([map[TEMP := 0]], [TEMP], strings, [TEMP]);
    var p := Clash();
    var first, last := ClashCode()[..4], [LocalGet(0), Print];
    var middle := ClashCode()[4..16];
    LetDefines(u, strings);
    CoalesceShares(u, e1);
    OutputReads(u, e1);
    assert p[1..][1..] == p[2..] && p[2..][1..] == [];
    assert last + [] == last;
    assert GenStmts(u, p[2..], None, e1) == Some(Emitted(last, e1));
    assert GenStmts(u, p[1..], None, e1) == Some(Emitted(middle + last, e1));
    assert first + (middle + last) == ClashCode();
  }

  lemma LetDefines(u: Unit, strings: seq<string>)
    requires u.top
    ensures GenStmt(u, Clash()[0], None, Env([map[]], [], strings, []))
         == Some(Emitted(ClashCode()[..4], Env([map[TEMP := 0]], [TEMP], strings, [TEMP])))
  {
    var e0 := Env([map[]], [], strings, []);
    assert Define(e0, TEMP) == Env([map[TEMP := 0]], [TEMP], strings, []);
    assert GenExpr(u, Lit(Int(1)), None, e0) == Some(Emitted([PushI64(1)], e0));
    assert IndexOf(e0.globals, TEMP).None?;
    assert [PushI64(1)] + [LocalSet(0), LocalGet(0), GlobalSet(0)] == ClashCode()[..4];
  }

  lemma OutputReads(u: Unit, env: Env)
    requires env.scopes == [map[TEMP := 0]]
    ensures GenStmt(u, Output(Var(TEMP)), None, env) == Some(Emitted([LocalGet(0), Print], env))
  {
    assert Innermost(env.scopes, TEMP) == Some(0);
    assert GenRead(u, TEMP, env) == Emitted([LocalGet(0)], env);
    assert GenExpr(u, Var(TEMP), None, env) == Some(GenRead(u, TEMP, env));
    assert [LocalGet(0)] + [Print] == [LocalGet(0), Print];
  }

  // `??` finds the user's variable and takes its slot for the scratch value.
  lemma CoalesceShares(u: Unit, env: Env)
    requires env.scopes == [map[TEMP := 0]]
    ensures GenStmt(u, Clash()[1], None, env) == Some(Emitted(ClashCode()[4..16], env))
  {
    assert Innermost(env.scopes, TEMP) == Some(0);
    assert WithTemp(env) == env && TempSlot(env) == 0;
    assert GenExpr(u, Lit(Null), Deeper(None, 1), env) == Some(Emitted([PushNull], env));
    assert GenExpr(u, Lit(Int(2)), None, env) == Some(Emitted([PushI64(2)], env));
    var value := [PushI64(2)] + NullTest(0) + IfElse([PushNull], [LocalGet(0)]);
    assert GenExpr(u, Clash()[1].expr, None, env) == Some(Emitted(value, env));
    assert value + [Drop] == ClashCode()[4..16];
  }

  // Whatever the library, the interpreter prints 1 and the compiled module prints 2.
  lemma ScratchNameClashes(fns: Index, m: Module, library: seq<Function>, prims: Prims) returns (final: Config)
    requires IsCompiled(fns, m, Clash(), library) && prims.Valid()
    ensures var r := N.Execute(prims, 0, Clash()); r.o.Norm? && r.st.out == [prims.show(Int(1))]
    ensures m.functions != [] && Reach(m, prims, Start(m), final)
    ensures final.Halt? && final.out == [prims.show(Int(2))]
  {
    hide IsCompiled, Reach, ClashCode, GenStmts, Clash, N.Execute;
    ClashSource(prims);
    assert "__main" !in Functions(Clash()) by { ClashFunctions(); }
    var strings, out := MainCode(fns, m, Clash(), library);
    ClashGenerated(fns, strings);
    assert Nulls(1) == [Null];
    final := ClashRun(m, prims);
  }

  lemma ClashFunctions()
    ensures Functions(Clash()) == map[]
  {
    var p := Clash();
    assert p[..2][..1] == p[..1] && p[..1][..0] == [];
    assert Functions(p[..1]) == map[];
    assert Functions(p[..2]) == map[];
  }

  lemma ClashSource(prims: Prims)
    ensures var r := N.Execute(prims, 0, Clash()); r.o.Norm? && r.st.out == [prims.show(Int(1))]
  {
    var p := Clash();
    ClashFunctions();
    var c := N.Ctx(prims, map[], map[]);
    assert p[2..][1..] == [] && p[1..][1..] == p[2..];
    assert N.Code(p[2..]) == p[2..];
    assert N.Code(p[1..]) == p[1..];
    assert N.Code(p) == p;
    var s0 := N.Initial();
    var s1 := N.State([N.Scope(map[TEMP := Int(1)], {})], []);
    assert N.Bound(N.Scope(map[], {}), TEMP, Int(1)) == s1.scopes[0];
    assert N.EvalStmt(c, 0, p[0], s0) == N.Res(Norm(Int(1)), s1);
    assert N.EvalStmt(c, 0, p[1], s1) == N.Res(Norm(Int(2)), s1) by {
      assert N.EvalExpr(c, 0, Lit(Int(2)), s1) == N.Res(Norm(Int(2)), s1);
    }
    assert N.EvalStmt(c, 0, p[2], s1) == N.Res(Norm(Int(1)), s1.(out := [prims.show(Int(1))])) by {
      assert N.Find(s1.scopes, TEMP) == Some(0);
    }
    assert p[1..][1..] == p[2..] && p[2..][1..] == [];
    assert N.EvalStmts(c, 0, p[2..], Int(2), s1) == N.Res(Norm(Int(1)), s1.(out := [prims.show(Int(1))]));
  }

  // ---- the machine, step by step ----

  ghost predicate HasClash(m: Module, prims: Prims) {
    && prims.Valid() && m.functions != [] && m.functions[0].code == ClashCode() + [PushNull, Leave]
    && m.functions[0].locals == 1 && m.globals != []
  }

  function Here(m: Module, pc: nat, stack: seq<Value>, labels: seq<Label>, local: Value, g: seq<Value>, out: seq<string>): Config {
    Run(Frame(0, pc, stack, labels, [local]), [], g, out)
  }

  // Values are put down one by one, so that small stacks are written out.
  function Onto<T>(s: seq<T>, x: T): (r: seq<T>)
    ensures r == s + [x]
  {
    if s == [] then [x] else if |s| == 1 then [s[0], x] else s + [x]
  }

  // One step from a place with at most two values on the stack.
  function After(m: Module, i: Instr, pc: nat, stack: seq<Value>, labels: seq<Label>, local: Value, g: seq<Value>, out: seq<string>, prims: Prims): Option<Config> {
    var n := |stack|;
    match i
    case PushNull => Some(Here(m, pc + 1, Onto(stack, Null), labels, local, g, out))
    case PushI64(k) => Some(Here(m, pc + 1, Onto(stack, Int(k)), labels, local, g, out))
    case LocalGet(x) => if x == 0 then Some(Here(m, pc + 1, Onto(stack, local), labels, local, g, out)) else None
    case LocalSet(x) => if n == 1 && x == 0 then Some(Here(m, pc + 1, [], labels, stack[0], g, out)) else None
    case GlobalSet(x) => if n == 1 && x < |g| then Some(Here(m, pc + 1, [], labels, local, g[x := stack[0]], out)) else None
    case GetTag => if n == 1 then Some(Here(m, pc + 1, [Int(TagOf(stack[0]))], labels, local, g, out)) else None
    case I64Eq => if n == 2 then Some(Here(m, pc + 1, [Bool(stack[0] == stack[1])], labels, local, g, out)) else None
    case Drop => if n == 1 then Some(Here(m, pc + 1, [], labels, local, g, out)) else None
    case Print => if n == 1 then Some(Here(m, pc + 1, [], labels, local, g, Onto(out, prims.show(stack[0])))) else None
    case End => if |labels| == 1 then Some(Here(m, pc + 1, stack, [], local, g, out)) else None
    case _ => None
  }

  lemma AfterStep(m: Module, i: Instr, pc: nat, stack: seq<Value>, labels: seq<Label>, local: Value, g: seq<Value>, out: seq<string>, prims: Prims)
    requires m.functions != [] && pc < |m.functions[0].code| && m.functions[0].code[pc] == i
    requires After(m, i, pc, stack, labels, local, g, out, prims).Some?
    ensures Step(m, prims, Here(m, pc, stack, labels, local, g, out)) == After(m, i, pc, stack, labels, local, g, out, prims).value
  {
    hide FindEnd, FindElse;
  }

  lemma Go(m: Module, prims: Prims, a: Config, pc: nat, stack: seq<Value>, labels: seq<Label>, local: Value, g: seq<Value>, out: seq<string>, c: Config)
    requires m.functions != [] && pc < |m.functions[0].code| && Reach(m, prims, a, Here(m, pc, stack, labels, local, g, out))
    requires After(m, m.functions[0].code[pc], pc, stack, labels, local, g, out, prims) == Some(c)
    ensures Reach(m, prims, a, c)
  {
    hide Step;
    AfterStep(m, m.functions[0].code[pc], pc, stack, labels, local, g, out, prims);
    ReachStep(m, prims, a, Here(m, pc, stack, labels, local, g, out));
  }

  lemma ClashPlaces(m: Module, prims: Prims)
    requires HasClash(m, prims)
    ensures m.functions != [] && |m.functions[0].code| == 20 && prims.Valid()
    ensures forall k | 0 <= k < 18 :: m.functions[0].code[k] == ClashCode()[k]
    ensures m.functions[0].code[18] == PushNull
  {
  }

  lemma ClashRun(m: Module, prims: Prims) returns (final: Config)
    requires HasClash(m, prims)
    ensures Reach(m, prims, Start(m), final) && final.Halt? && final.out == [prims.show(Int(2))]
  {
    hide Reach, Step, HasClash;
    var g := ClashLet(m, prims);
    ClashStores(m, prims, g);
    ClashTest(m, prims, g);
    final := ClashEnd(m, prims, g);
  }

  lemma ClashLet(m: Module, prims: Prims) returns (g: seq<Value>)
    requires HasClash(m, prims)
    ensures m.functions != [] && Reach(m, prims, Start(m), Here(m, 4, [], [], Int(1), g, []))
  {
    hide Reach, Step;
    var a := Start(m);
    var g0 := Nulls(|m.globals|);
    assert Nulls(1) == [Null];
    ReachRefl(m, prims, a);
    Go(m, prims, a, 0, [], [], Null, g0, [], Here(m, 1, [Int(1)], [], Null, g0, []));
    Go(m, prims, a, 1, [Int(1)], [], Null, g0, [], Here(m, 2, [], [], Int(1), g0, []));
    Go(m, prims, a, 2, [], [], Int(1), g0, [], Here(m, 3, [Int(1)], [], Int(1), g0, []));
    g := g0[0 := Int(1)];
    Go(m, prims, a, 3, [Int(1)], [], Int(1), g0, [], Here(m, 4, [], [], Int(1), g, []));
  }

  // The left operand overwrites the variable.
  lemma ClashStores(m: Module, prims: Prims, g: seq<Value>)
    requires HasClash(m, prims) && m.functions != [] && Reach(m, prims, Start(m), Here(m, 4, [], [], Int(1), g, []))
    ensures Reach(m, prims, Start(m), Here(m, 7, [Int(2)], [], Int(2), g, []))
  {
    hide Reach, Step, HasClash;
    ClashPlaces(m, prims);
    var a := Start(m);
    Go(m, prims, a, 4, [], [], Int(1), g, [], Here(m, 5, [Int(2)], [], Int(1), g, []));
    Go(m, prims, a, 5, [Int(2)], [], Int(1), g, [], Here(m, 6, [], [], Int(2), g, []));
    Go(m, prims, a, 6, [], [], Int(2), g, [], Here(m, 7, [Int(2)], [], Int(2), g, []));
  }

  // Up to the conditional: 2 is in the shared slot and is not null.
  lemma ClashTest(m: Module, prims: Prims, g: seq<Value>)
    requires HasClash(m, prims) && m.functions != [] && Reach(m, prims, Start(m), Here(m, 7, [Int(2)], [], Int(2), g, []))
    ensures Reach(m, prims, Start(m), Here(m, 10, [Bool(false)], [], Int(2), g, []))
  {
    hide Reach, Step, HasClash;
    ClashPlaces(m, prims);
    var a := Start(m);
    Go(m, prims, a, 7, [Int(2)], [], Int(2), g, [], Here(m, 8, [Int(2)], [], Int(2), g, []));
    Go(m, prims, a, 8, [Int(2)], [], Int(2), g, [], Here(m, 9, [Int(2), Int(0)], [], Int(2), g, []));
    Go(m, prims, a, 9, [Int(2), Int(0)], [], Int(2), g, [], Here(m, 10, [Bool(false)], [], Int(2), g, []));
  }

  lemma ClashEnd(m: Module, prims: Prims, g: seq<Value>) returns (final: Config)
    requires HasClash(m, prims) && m.functions != [] && Reach(m, prims, Start(m), Here(m, 10, [Bool(false)], [], Int(2), g, []))
    ensures Reach(m, prims, Start(m), final) && final.Halt? && final.out == [prims.show(Int(2))]
  {
    hide Reach, Step, HasClash;
    ClashPlaces(m, prims);
    var a, two := Start(m), [prims.show(Int(2))];
    ClashOpens(m, prims, g);
    ReachStep(m, prims, a, Here(m, 10, [Bool(false)], [], Int(2), g, []));
    Go(m, prims, a, 13, [], [Label(15, 0, 1)], Int(2), g, [], Here(m, 14, [Int(2)], [Label(15, 0, 1)], Int(2), g, []));
    Go(m, prims, a, 14, [Int(2)], [Label(15, 0, 1)], Int(2), g, [], Here(m, 15, [Int(2)], [], Int(2), g, []));
    Go(m, prims, a, 15, [Int(2)], [], Int(2), g, [], Here(m, 16, [], [], Int(2), g, []));
    Go(m, prims, a, 16, [], [], Int(2), g, [], Here(m, 17, [Int(2)], [], Int(2), g, []));
    Go(m, prims, a, 17, [Int(2)], [], Int(2), g, [], Here(m, 18, [], [], Int(2), g, two));
    Go(m, prims, a, 18, [], [], Int(2), g, two, Here(m, 19, [Null], [], Int(2), g, two));
    final := Halt(Null, g, two);
    ClashLeaves(m, prims, Here(m, 19, [Null], [], Int(2), g, two));
    ReachStep(m, prims, a, Here(m, 19, [Null], [], Int(2), g, two));
  }

  lemma ClashOpens(m: Module, prims: Prims, g: seq<Value>)
    requires HasClash(m, prims)
    ensures Step(m, prims, Here(m, 10, [Bool(false)], [], Int(2), g, [])) == Here(m, 13, [], [Label(15, 0, 1)], Int(2), g, [])
  {
    hide FindElse, FindEnd;
    ClashBranch();
  }

  lemma ClashLeaves(m: Module, prims: Prims, c: Config)
    requires HasClash(m, prims) && c.Run? && c.frame.fn == 0 && c.frame.pc == 19 && c.frame.stack == [Null] && c.callers == []
    ensures Step(m, prims, c) == Halt(Null, c.globals, c.out)
  {
    hide FindElse, FindEnd;
  }

  lemma ClashBranch()
    ensures var code := ClashCode() + [PushNull, Leave]; FindElse(code, 11, 0) == 12 && FindEnd(code, 11, 0) == 14
  {
    var code := ClashCode() + [PushNull, Leave];
    assert FindElse(code, 12, 0) == 12;
    assert FindEnd(code, 14, 0) == 14;
    assert FindEnd(code, 13, 0) == 14;
    assert FindEnd(code, 12, 0) == 14;
  }
}
