// Without &&, || and ?? a variable called like the scratch local does no harm: the compiled
// module does what the interpreter does, as for any other name.
module IrHarmless {
  import opened Wrappers
  import opened Syntax
  import opened Values
  import opened Semantics
  import opened IrMachine
  import opened IrCodegen
  import opened IrRelation
  import opened IrLink
  import opened IrRename
  import opened IrTheorem
  import opened Readings
  import P = ReadingsProgram
  import N = Interpreter

  // ---- the interpreter does not care about names ----

  function SwapSet(z: string, xs: set<string>): (r: set<string>)
    ensures forall x :: Swap(z, x) in r <==> x in xs
  {
    forall x, y ensures Swap(z, x) == Swap(z, y) <==> x == y { SwapSame(z, x, y); }
    set x | x in xs :: Swap(z, x)
  }

  lemma SameSet(z: string, a: set<string>, b: set<string>)
    requires forall x :: Swap(z, x) in b <==> x in a
    ensures SwapSet(z, a) == b
  {
    forall x ensures x in b <==> x in SwapSet(z, a) {
      SwapTwice(z, x);
      assert Swap(z, Swap(z, x)) in b <==> Swap(z, x) in a;
    }
  }

  function SwapScope(z: string, s: N.Scope): N.Scope {
    N.Scope(SwapMap(z, s.vars), SwapSet(z, s.fixed))
  }

  function SwapScopes(z: string, ss: seq<N.Scope>): (r: seq<N.Scope>)
    ensures |r| == |ss| && forall i | 0 <= i < |ss| :: r[i] == SwapScope(z, ss[i])
  {
    seq(|ss|, i requires 0 <= i < |ss| => SwapScope(z, ss[i]))
  }

  function SwapState(z: string, s: N.State): N.State {
    N.State(SwapScopes(z, s.scopes), s.out)
  }

  function SwapRes(z: string, r: N.Res): N.Res {
    N.Res(r.o, SwapState(z, r.st))
  }

  ghost predicate Swapped(z: string, c: N.Ctx, d: N.Ctx) {
    && z != N.NONE && d.prims == c.prims && c.captured == map[] && d.captured == map[] && d.funs.Keys == c.funs.Keys
    && forall f | f in c.funs :: d.funs[f] == SwapDecl(z, c.funs[f])
  }

  lemma {:induction false} FindSwapped(z: string, ss: seq<N.Scope>, x: string)
    ensures N.Find(SwapScopes(z, ss), Swap(z, x)) == N.Find(ss, x)
  {
    hide SwapMap, SwapSet;
    if ss != [] {
      var n := |ss| - 1;
      assert SwapScopes(z, ss)[..n] == SwapScopes(z, ss[..n]);
      FindSwapped(z, ss[..n], x);
      assert Swap(z, x) in SwapMap(z, ss[n].vars) <==> x in ss[n].vars;
    }
  }

  lemma ReadVarSwapped(z: string, x: string, s: N.State)
    requires z != N.NONE
    ensures N.ReadVar(Swap(z, x), SwapState(z, s)) == SwapRes(z, N.ReadVar(x, s))
  {
    FindSwapped(z, s.scopes, x);
  }

  lemma UpdateSwapped(z: string, ss: seq<N.Scope>, i: nat, s: N.Scope)
    requires i < |ss|
    ensures SwapScopes(z, ss[i := s]) == SwapScopes(z, ss)[i := SwapScope(z, s)]
  {
  }

  lemma WriteVarSwapped(z: string, x: string, v: Value, s: N.State)
    ensures N.WriteVar(Swap(z, x), v, SwapState(z, s)) == SwapRes(z, N.WriteVar(x, v, s))
  {
    hide SwapMap, SwapSet, SwapScopes;
    FindSwapped(z, s.scopes, x);
    if N.Find(s.scopes, x).Some? {
      var i := N.Find(s.scopes, x).value;
      var scope := s.scopes[i];
      SwapUpdate(z, scope.vars, x, v);
      UpdateSwapped(z, s.scopes, i, scope.(vars := scope.vars[x := v]));
      assert Swap(z, x) in SwapSet(z, scope.fixed) <==> x in scope.fixed;
    }
  }

  lemma BoundSwapped(z: string, s: N.Scope, x: string, v: Value)
    ensures N.Bound(SwapScope(z, s), Swap(z, x), v) == SwapScope(z, N.Bound(s, x, v))
  {
    SwapUpdate(z, s.vars, x, v);
    forall y ensures Swap(z, y) == Swap(z, x) <==> x == y { SwapSame(z, x, y); }
    SameSet(z, s.fixed - {x}, SwapSet(z, s.fixed) - {Swap(z, x)});
  }

  lemma BindVarSwapped(z: string, x: string, v: Value, s: N.State)
    ensures N.BindVar(Swap(z, x), v, SwapState(z, s)) == SwapRes(z, N.BindVar(x, v, s))
  {
    hide SwapScope;
    if s.scopes != [] {
      var top := |s.scopes| - 1;
      BoundSwapped(z, s.scopes[top], x, v);
      UpdateSwapped(z, s.scopes, top, N.Bound(s.scopes[top], x, v));
    }
  }

  lemma EmptySwapped(z: string)
    ensures SwapScope(z, N.Scope(map[], {})) == N.Scope(map[], {})
  {
    SwapNothing<Value>(z);
    SameSet(z, {}, {});
  }

  lemma PushSwapped(z: string, s: N.State)
    ensures N.PushScope(SwapState(z, s)) == SwapState(z, N.PushScope(s))
  {
    EmptySwapped(z);
    assert SwapScopes(z, s.scopes + [N.Scope(map[], {})]) == SwapScopes(z, s.scopes) + [N.Scope(map[], {})];
  }

  lemma PopSwapped(z: string, s: N.State)
    requires s.scopes != []
    ensures N.PopScope(SwapState(z, s)) == SwapState(z, N.PopScope(s))
  {
    assert SwapScopes(z, s.scopes[..|s.scopes| - 1]) == SwapScopes(z, s.scopes)[..|s.scopes| - 1];
  }

  function WithFixed(s: N.Scope, x: string, v: Value): N.Scope {
    N.Scope(s.vars[x := v], s.fixed + {x})
  }

  lemma FixedSwapped(z: string, s: N.Scope, x: string, v: Value)
    ensures WithFixed(SwapScope(z, s), Swap(z, x), v) == SwapScope(z, WithFixed(s, x, v))
  {
    SwapUpdate(z, s.vars, x, v);
    forall y ensures Swap(z, y) == Swap(z, x) <==> x == y { SwapSame(z, x, y); }
    SameSet(z, s.fixed + {x}, SwapSet(z, s.fixed) + {Swap(z, x)});
  }

  lemma BindingsMean(start: N.Scope, params: seq<string>, vs: seq<Value>)
    requires |params| == |vs| > 0
    ensures var n := |params| - 1;
      N.Bindings(start, params, vs) == WithFixed(N.Bindings(start, params[..n], vs[..n]), params[n], vs[n])
  {
  }

  lemma {:induction false} BindingsSwapped(z: string, start: N.Scope, params: seq<string>, vs: seq<Value>)
    requires |params| == |vs|
    ensures N.Bindings(SwapScope(z, start), SwapAll(z, params), vs) == SwapScope(z, N.Bindings(start, params, vs))
    decreases |params|
  {
    hide SwapScope, WithFixed, Swap;
    if params != [] {
      var n := |params| - 1;
      AllButLast(z, params);
      BindingsMean(start, params, vs);
      BindingsMean(SwapScope(z, start), SwapAll(z, params), vs);
      BindingsSwapped(z, start, params[..n], vs[..n]);
      FixedSwapped(z, N.Bindings(start, params[..n], vs[..n]), params[n], vs[n]);
    }
  }

  lemma AllButLast(z: string, params: seq<string>)
    requires params != []
    ensures SwapAll(z, params)[..|params| - 1] == SwapAll(z, params[..|params| - 1])
  {
  }

  lemma EntrySwapped(z: string, c: N.Ctx, d: N.Ctx, f: FnDecl, vs: seq<Value>, s: N.State)
    requires Swapped(z, c, d) && |f.params| == |vs|
    ensures N.Entry(d, SwapDecl(z, f), vs, SwapState(z, s)) == SwapState(z, N.Entry(c, f, vs, s))
  {
    hide N.Bindings, SwapScope;
    EmptySwapped(z);
    BindingsSwapped(z, N.Scope(map[], {}), f.params, vs);
    var top, b := N.TopLevel(s), N.Bindings(N.Scope(map[], {}), f.params, vs);
    assert N.TopLevel(SwapState(z, s)) == SwapScope(z, top);
    assert SwapScopes(z, [top, b]) == [SwapScope(z, top), SwapScope(z, b)];
  }

  lemma BackSwapped(z: string, a: N.State, s: N.State)
    requires a.scopes != []
    ensures N.Back(SwapState(z, a), SwapState(z, s)) == SwapState(z, N.Back(a, s))
  {
    if s.scopes != [] {
      assert SwapScopes(z, [a.scopes[0]] + s.scopes[1..]) == [SwapScope(z, a.scopes[0])] + SwapScopes(z, s.scopes)[1..];
    }
  }

  lemma {:induction false} EvalSwapped(z: string, c: N.Ctx, d: N.Ctx, fuel: nat, e: Expr, s: N.State)
    requires Swapped(z, c, d)
    ensures N.EvalExpr(d, fuel, SwapExpr(z, e), SwapState(z, s)) == SwapRes(z, N.EvalExpr(c, fuel, e, s))
    decreases fuel, e, 1
  {
    hide Swapped, SwapState;
    PrimsSame(z, c, d);
    match e
    case Lit(_) =>
    case Var(x) => ReadVarSwapped(z, x, s);
    case Bin(_, l, r) =>
      EvalSwapped(z, c, d, fuel, l, s);
      EvalSwapped(z, c, d, fuel, r, N.EvalExpr(c, fuel, l, s).st);
    case Un(_, x) => EvalSwapped(z, c, d, fuel, x, s);
    case Call(fn, args) =>
      ArgsEval(z, c, d, fuel, args, s);
      var a := N.EvalArgs(c, fuel, args, s);
      if a.o.Norm? && fuel > 0 { InvokeSwapped(z, c, d, fuel - 1, fn, a.vs, a.st); }
    case If(x, t, f) =>
      EvalSwapped(z, c, d, fuel, x, s);
      var r := N.EvalExpr(c, fuel, x, s);
      BlockEval(z, c, d, fuel, t, r.st);
      if f.Some? { BlockEval(z, c, d, fuel, f.value, r.st); }
    case BlockExpr(b) => BlockEval(z, c, d, fuel, b, s);
    case Coalesce(l, r) =>
      EvalSwapped(z, c, d, fuel, l, s);
      EvalSwapped(z, c, d, fuel, r, N.EvalExpr(c, fuel, l, s).st);
    case Loop(b) =>
      BlockEval(z, c, d, fuel, b, s);
      if fuel > 0 { EvalSwapped(z, c, d, fuel - 1, e, N.EvalBlock(c, fuel, b, s).st); }
  }

  lemma PrimsSame(z: string, c: N.Ctx, d: N.Ctx)
    requires Swapped(z, c, d)
    ensures z != N.NONE && d.prims == c.prims && d.funs.Keys == c.funs.Keys
  {
  }

  lemma {:induction false} ArgsEval(z: string, c: N.Ctx, d: N.Ctx, fuel: nat, args: seq<Expr>, s: N.State)
    requires Swapped(z, c, d)
    ensures var x := N.EvalArgs(c, fuel, args, s);
      N.EvalArgs(d, fuel, SwapArgs(z, args), SwapState(z, s)) == N.ArgsRes(x.o, x.vs, SwapState(z, x.st))
    decreases fuel, args, 0
  {
    hide Swapped, SwapState;
    if args != [] {
      EvalSwapped(z, c, d, fuel, args[0], s);
      assert SwapArgs(z, args)[1..] == SwapArgs(z, args[1..]);
      ArgsEval(z, c, d, fuel, args[1..], N.EvalExpr(c, fuel, args[0], s).st);
    }
  }

  lemma {:induction false} InvokeSwapped(z: string, c: N.Ctx, d: N.Ctx, fuel: nat, fn: string, vs: seq<Value>, s: N.State)
    requires Swapped(z, c, d)
    ensures N.Invoke(d, fuel, fn, vs, SwapState(z, s)) == SwapRes(z, N.Invoke(c, fuel, fn, vs, s))
    decreases fuel
  {
    hide SwapState, SwapBlock, N.EvalBody, N.Entry, N.Back;
    if fn in c.funs && |c.funs[fn].params| == |vs| {
      var f := c.funs[fn];
      var entry := N.Entry(c, f, vs, s);
      EntrySwapped(z, c, d, f, vs, s);
      BodyEval(z, c, d, fuel, f.body, entry);
      BackSwapped(z, N.EvalBody(c, fuel, f.body, entry).st, s);
    }
  }

  lemma {:induction false} BlockEval(z: string, c: N.Ctx, d: N.Ctx, fuel: nat, b: Block, s: N.State)
    requires Swapped(z, c, d)
    ensures N.EvalBlock(d, fuel, SwapBlock(z, b), SwapState(z, s)) == SwapRes(z, N.EvalBlock(c, fuel, b, s))
    decreases fuel, b, 1
  {
    hide Swapped, SwapState, N.EvalBody;
    PushSwapped(z, s);
    BodyEval(z, c, d, fuel, b, N.PushScope(s));
    PopSwapped(z, N.EvalBody(c, fuel, b, N.PushScope(s)).st);
  }

  lemma {:induction false} BodyEval(z: string, c: N.Ctx, d: N.Ctx, fuel: nat, b: Block, s: N.State)
    requires Swapped(z, c, d)
    ensures N.EvalBody(d, fuel, SwapBlock(z, b), SwapState(z, s)) == SwapRes(z, N.EvalBody(c, fuel, b, s))
    decreases fuel, b, 0
  {
    hide Swapped, SwapState;
    StmtsEval(z, c, d, fuel, b.stmts, Null, s);
    if b.tail.Some? { EvalSwapped(z, c, d, fuel, b.tail.value, N.EvalStmts(c, fuel, b.stmts, Null, s).st); }
  }

  lemma {:induction false} StmtsEval(z: string, c: N.Ctx, d: N.Ctx, fuel: nat, ss: seq<Stmt>, last: Value, s: N.State)
    requires Swapped(z, c, d)
    ensures N.EvalStmts(d, fuel, SwapStmts(z, ss), last, SwapState(z, s)) == SwapRes(z, N.EvalStmts(c, fuel, ss, last, s))
    decreases fuel, ss, 0
  {
    hide Swapped, SwapState;
    if ss != [] {
      StmtEval(z, c, d, fuel, ss[0], s);
      assert SwapStmts(z, ss)[1..] == SwapStmts(z, ss[1..]);
      var r := N.EvalStmt(c, fuel, ss[0], s);
      if r.o.Norm? { StmtsEval(z, c, d, fuel, ss[1..], r.o.v, r.st); }
    }
  }

  lemma {:induction false} StmtEval(z: string, c: N.Ctx, d: N.Ctx, fuel: nat, st: Stmt, s: N.State)
    requires Swapped(z, c, d)
    ensures N.EvalStmt(d, fuel, SwapStmt(z, st), SwapState(z, s)) == SwapRes(z, N.EvalStmt(c, fuel, st, s))
    decreases fuel, st, 2
  {
    hide Swapped;
    PrimsSame(z, c, d);
    match st
    case Let(x, e) =>
      EvalSwapped(z, c, d, fuel, e, s);
      var r := N.EvalExpr(c, fuel, e, s);
      if r.o.Norm? { BindVarSwapped(z, x, r.o.v, r.st); }
    case Assign(x, e) =>
      EvalSwapped(z, c, d, fuel, e, s);
      var r := N.EvalExpr(c, fuel, e, s);
      if r.o.Norm? { WriteVarSwapped(z, x, r.o.v, r.st); }
    case Output(e) => EvalSwapped(z, c, d, fuel, e, s);
    case ExprStmt(e) => EvalSwapped(z, c, d, fuel, e, s);
    case While(_, _) => WhileEval(z, c, d, fuel, st, Null, s);
    case DoWhile(_, _) => DoWhileEval(z, c, d, fuel, st, Null, s);
    case Return(e) => if e.Some? { EvalSwapped(z, c, d, fuel, e.value, s); }
    case Throw(e) => EvalSwapped(z, c, d, fuel, e, s);
    case Break =>
    case Continue =>
    case FnDef(_) =>
  }

  lemma {:induction false} WhileEval(z: string, c: N.Ctx, d: N.Ctx, fuel: nat, st: Stmt, last: Value, s: N.State)
    requires st.While? && Swapped(z, c, d)
    ensures N.EvalWhile(d, fuel, SwapStmt(z, st), last, SwapState(z, s)) == SwapRes(z, N.EvalWhile(c, fuel, st, last, s))
    decreases fuel, st, 1
  {
    hide Swapped, SwapState;
    if fuel > 0 {
      EvalSwapped(z, c, d, fuel, st.cond, s);
      var x := N.EvalExpr(c, fuel, st.cond, s);
      BlockEval(z, c, d, fuel, st.body, x.st);
      var b := N.EvalBlock(c, fuel, st.body, x.st);
      WhileEval(z, c, d, fuel - 1, st, if b.o.Norm? then b.o.v else last, b.st);
    }
  }

  lemma {:induction false} DoWhileEval(z: string, c: N.Ctx, d: N.Ctx, fuel: nat, st: Stmt, last: Value, s: N.State)
    requires st.DoWhile? && Swapped(z, c, d)
    ensures N.EvalDoWhile(d, fuel, SwapStmt(z, st), last, SwapState(z, s)) == SwapRes(z, N.EvalDoWhile(c, fuel, st, last, s))
    decreases fuel, st, 1
  {
    hide Swapped, SwapState;
    if fuel > 0 {
      BlockEval(z, c, d, fuel, st.body, s);
      var b := N.EvalBlock(c, fuel, st.body, s);
      EvalSwapped(z, c, d, fuel, st.cond, b.st);
      var x := N.EvalExpr(c, fuel, st.cond, b.st);
      DoWhileEval(z, c, d, fuel - 1, st, if b.o.Norm? then b.o.v else last, x.st);
    }
  }

  // ---- whole programs ----

  lemma {:induction false} StmtsAppend(z: string, p: Program, st: Stmt)
    ensures SwapStmts(z, p + [st]) == SwapStmts(z, p) + [SwapStmt(z, st)]
  {
    hide SwapStmt;
    if p == [] {
      assert [] + [st] == [st] && [st][1..] == [];
    } else {
      assert (p + [st])[1..] == p[1..] + [st];
      StmtsAppend(z, p[1..], st);
    }
  }

  lemma FunctionsLast(p: Program)
    requires p != []
    ensures var funs, last := Functions(p[..|p| - 1]), p[|p| - 1];
      Functions(p) == if last.FnDef? then funs[last.decl.name := last.decl] else funs
  {
  }

  lemma {:induction false} FunctionsSwapped(z: string, p: Program)
    ensures Functions(SwapStmts(z, p)).Keys == Functions(p).Keys
    ensures forall f | f in Functions(p) :: Functions(SwapStmts(z, p))[f] == SwapDecl(z, Functions(p)[f])
    decreases |p|
  {
    hide SwapStmts, SwapBlock, Functions, SwapExpr;
    if p == [] {
      NoFunctions(z, p);
    } else {
      var q, st := p[..|p|-1], p[|p|-1];
      assert q + [st] == p;
      FunctionsSwapped(z, q);
      StmtsAppend(z, q, st);
      assert SwapStmts(z, p)[..|p|-1] == SwapStmts(z, q);
      FunctionsLast(p);
      FunctionsLast(SwapStmts(z, p));
      KindSwapped(z, st);
    }
  }

  lemma NoFunctions(z: string, p: Program)
    requires p == []
    ensures Functions(p) == map[] && Functions(SwapStmts(z, p)) == map[]
  {
  }

  lemma {:induction false} CodeSwapped(z: string, p: Program)
    ensures N.Code(SwapStmts(z, p)) == SwapStmts(z, N.Code(p))
  {
    hide SwapStmt;
    if p != [] {
      assert SwapStmts(z, p)[1..] == SwapStmts(z, p[1..]);
      CodeSwapped(z, p[1..]);
      KindSwapped(z, p[0]);
      if !p[0].FnDef? { assert ([p[0]] + N.Code(p[1..]))[1..] == N.Code(p[1..]); }
    }
  }

  lemma KindSwapped(z: string, st: Stmt)
    ensures SwapStmt(z, st).FnDef? == st.FnDef?
    ensures st.FnDef? ==> SwapStmt(z, st).decl == SwapDecl(z, st.decl)
  {
  }

  lemma ExecuteSwapped(z: string, prims: Prims, fuel: nat, p: Program)
    requires z != N.NONE && N.MAIN !in Functions(p)
    ensures var x, y := N.Execute(prims, fuel, p), N.Execute(prims, fuel, SwapStmts(z, p)); y.o == x.o && y.st.out == x.st.out
  {
    hide SwapStmts, N.Code, N.EvalStmts, SwapScopes, SwapBlock;
    FunctionsSwapped(z, p);
    CodeSwapped(z, p);
    var c, d := N.Ctx(prims, Functions(p), map[]), N.Ctx(prims, Functions(SwapStmts(z, p)), map[]);
    EmptySwapped(z);
    assert SwapScopes(z, [N.Scope(map[], {})]) == [N.Scope(map[], {})];
    StmtsEval(z, c, d, fuel, N.Code(p), Null, N.Initial());
  }

  // ---- the module ----

  function SwapModule(z: string, m: Module): Module {
    m.(globals := SwapAll(z, m.globals))
  }

  lemma SlotsMean(params: seq<string>)
    requires params != []
    ensures ParamSlots(params) == ParamSlots(params[..|params| - 1])[params[|params| - 1] := |params| - 1]
  {
  }

  lemma NoSlots(z: string, params: seq<string>)
    requires params == []
    ensures ParamSlots(SwapAll(z, params)) == map[] && ParamSlots(params) == map[]
  {
  }

  lemma {:induction false} SlotsSwapped(z: string, params: seq<string>)
    ensures ParamSlots(SwapAll(z, params)) == SwapMap<nat>(z, ParamSlots(params))
    decreases |params|
  {
    hide SwapMap, ParamSlots, Swap;
    if params == [] {
      NoSlots(z, params);
      SwapNothing<nat>(z);
    } else {
      var n := |params| - 1;
      AllButLast(z, params);
      SlotsMean(params);
      SlotsMean(SwapAll(z, params));
      SlotsSwapped(z, params[..n]);
      SwapUpdate<nat>(z, ParamSlots(params[..n]), params[n], n);
    }
  }

  lemma PrefixSwapped(z: string, a: seq<string>, b: seq<string>)
    requires a <= b
    ensures SwapAll(z, a) <= SwapAll(z, b)
  {
  }

  lemma FunctionSwapped(z: string, fns: Index, m: Module, d: FnDecl)
    requires HasCode(fns, m, d) && IrRename.Apart(z, fns) && NoScratchBlock(fns.Keys, d.body)
    ensures HasCode(fns, SwapModule(z, m), SwapDecl(z, d))
  {
    hide GenBlock, SwapBlock, ParamSlots, SwapMap, NoScratchBlock;
    var u := Unit(fns, false);
    var ss, gs :| CompiledFrom(u, m, d, fns[d.name], ss, gs);
    var env := ParamEnv(d.params, ss, gs);
    SlotsSwapped(z, d.params);
    assert SwapMaps<nat>(z, [ParamSlots(d.params)]) == [SwapMap<nat>(z, ParamSlots(d.params))];
    assert SwapEnv(z, env) == ParamEnv(SwapAll(z, d.params), ss, SwapAll(z, gs));
    BlockSwapped(z, u, d.body, None, env);
    PrefixSwapped(z, GenBlock(u, d.body, None, env).value.env.globals, m.globals);
    assert CompiledFrom(u, SwapModule(z, m), SwapDecl(z, d), fns[d.name], ss, SwapAll(z, gs));
  }

  lemma MainSwapped(z: string, fns: Index, m: Module, p: Program, strings: seq<string>)
    requires MainFrom(fns, m, p, strings) && IrRename.Apart(z, fns) && NoScratchStmts(fns.Keys, p)
    ensures MainFrom(fns, SwapModule(z, m), SwapStmts(z, p), strings)
  {
    hide GenStmts, SwapStmts, NoScratchStmts;
    var u, env := Unit(fns, true), Env([map[]], [], strings, []);
    SwapNothing<nat>(z);
    assert SwapMaps<nat>(z, [map[]]) == [map[]];
    assert SwapEnv(z, env) == env;
    StmtsSwapped(z, u, p, None, env);
    PrefixSwapped(z, GenStmts(u, p, None, env).value.env.globals, m.globals);
  }

  // No function of the program asks for the scratch local.
  predicate NoScratch(fns: set<string>, p: Program) {
    NoScratchStmts(fns, p) && forall f | f in Functions(p) :: NoScratchBlock(fns, Functions(p)[f].body)
  }

  lemma CompiledSwapped(z: string, fns: Index, m: Module, p: Program, library: seq<Function>)
    requires IsCompiled(fns, m, p, library) && IrRename.Apart(z, fns) && NoScratch(fns.Keys, p) && "__main" !in Functions(p)
    ensures IsCompiled(fns, SwapModule(z, m), SwapStmts(z, p), library)
  {
    hide HasCode, MainFrom, SwapStmts, SwapDecl, NoScratchStmts, NoScratchBlock;
    FunctionsSwapped(z, p);
    forall f | f in Functions(p) ensures HasCode(fns, SwapModule(z, m), SwapDecl(z, Functions(p)[f])) {
      FunctionSwapped(z, fns, m, Functions(p)[f]);
    }
    var strings :| MainFrom(fns, m, p, strings);
    MainSwapped(z, fns, m, p, strings);
  }

  // The machine never looks at the names of the globals.
  lemma StepSwapped(z: string, m: Module, prims: Prims, c: Config)
    ensures Step(SwapModule(z, m), prims, c) == Step(m, prims, c)
  {
    hide FindEnd, FindElse;
  }

  lemma {:induction false} StepsSwapped(z: string, m: Module, prims: Prims, n: nat, c: Config)
    ensures Steps(SwapModule(z, m), prims, n, c) == Steps(m, prims, n, c)
    decreases n
  {
    hide Step, SwapModule;
    if n > 0 {
      StepSwapped(z, m, prims, c);
      StepsSwapped(z, m, prims, n - 1, Step(m, prims, c));
    }
  }

  lemma ReachSwapped(z: string, m: Module, prims: Prims, a: Config, b: Config)
    requires Reach(SwapModule(z, m), prims, a, b)
    ensures Reach(m, prims, a, b)
  {
    hide SwapModule;
    var n: nat :| Steps(SwapModule(z, m), prims, n, a) == b;
    StepsSwapped(z, m, prims, n, a);
  }

  // A program without &&, || and ?? may use the scratch name: if it is tame under another name in its place,
  // the compiled module does what the interpreter does.
  lemma ScratchHarmless(fns: Index, m: Module, p: Program, library: seq<Function>, prims: Prims, fuel: nat, k: Rules, z: string)
      returns (final: Config)
    requires IsCompiled(fns, m, p, library) && prims.Valid() && "__main" !in Functions(p) && N.MAIN !in Functions(p)
    requires NoScratch(fns.Keys, p) && IrRename.Apart(z, fns) && z != N.NONE
    requires k.mode.Ir? && P.Apart(k, p, Builtins(library)) && P.TameRun(prims, k, SwapStmts(z, p), fuel)
    requires !N.Execute(prims, fuel, p).o.Fail?
    ensures m.functions != [] && Reach(m, prims, Start(m), final) && !final.Run?
    ensures var r := N.Execute(prims, fuel, p);
      && final.out == r.st.out && (r.o.Thrown? <==> final.Trap?) && (final.Halt? ==> final.v == Null)
  {
    hide IsCompiled, Reach, P.TameRun, N.Execute, SwapStmts, NoScratch, Functions;
    FunctionsSwapped(z, p);
    CompiledSwapped(z, fns, m, p, library);
    ExecuteSwapped(z, prims, fuel, p);
    final := CompiledMatchesSource(fns, SwapModule(z, m), SwapStmts(z, p), library, prims, fuel, k);
    ReachSwapped(z, m, prims, Start(m), final);
  }
}
