// How a state of the evaluator and a machine configuration correspond.
module IrRelation {
  import opened Syntax
  import opened Values
  import opened Semantics
  import opened IrMachine
  import opened IrCodegen
  import opened Pools
  import opened IrBrackets

  // A program's context, its compilation unit and the module made from it.
  datatype World = World(c: Ctx, u: Unit, m: Module)

  ghost predicate CompiledFrom(u: Unit, m: Module, decl: FnDecl, i: nat, strings: seq<string>, globals: seq<string>)
    requires i < |m.functions|
  {
    var o := GenFunction(u.(top := false), decl, strings, globals);
    var f := m.functions[i];
    && o.Some?
    && f.code == o.value.code && f.params == |decl.params| && f.locals == |o.value.env.locals|
    && o.value.env.strings <= m.strings && o.value.env.globals <= m.globals
  }

  // If the program defines `x`, the module holds its code; the index knows no other names but built-ins.
  ghost predicate LinkedAt(w: World, x: string) {
    && (x in w.u.fns ==> x in w.c.funs || x in w.c.builtins)
    && (x in w.c.funs ==>
          && x in w.u.fns && w.u.fns[x] < |w.m.functions|
          && exists strings, globals :: CompiledFrom(w.u, w.m, w.c.funs[x], w.u.fns[x], strings, globals))
  }

  ghost predicate Linked(w: World) {
    w.c.mode.Ir? && w.c.prims.Valid() && w.c.top == w.u.top && forall x :: LinkedAt(w, x)
  }

  ghost predicate At(w: World, f: Frame, code: seq<Instr>) {
    f.fn < |w.m.functions| && Segment(w.m.functions[f.fn].code, f.pc, code)
  }

  ghost predicate Fits(w: World, f: Frame, env: Env) {
    |env.locals| <= |f.locals| && env.strings <= w.m.strings && env.globals <= w.m.globals
  }

  // Every source variable is in its slot.
  ghost predicate ScopesRel(ss: seq<Scope>, vis: seq<Slots>, locals: seq<Value>) {
    && |ss| == |vis|
    && (forall i, x | 0 <= i < |ss| :: x in ss[i] <==> x in vis[i])
    && (forall i, x | 0 <= i < |ss| && x in ss[i] :: vis[i][x] < |locals| && locals[vis[i][x]] == ss[i][x])
  }

  ghost predicate GlobalsRel(m: Module, globals: map<string, Value>, g: seq<Value>) {
    && |g| == |m.globals|
    && forall x | x in m.globals :: g[IndexOf(m.globals, x).value] == GetGlobal(globals, x)
  }

  // The part of a configuration that running a fragment may change besides control.
  datatype Mem = Mem(locals: seq<Value>, globals: seq<Value>, out: seq<string>)

  function MemOf(a: Config): Mem
    requires a.Run?
  {
    Mem(a.frame.locals, a.globals, a.out)
  }

  ghost predicate Rel(w: World, s: State, scopes: seq<Slots>, m: Mem) {
    ScopesRel(s.scopes, Visible(scopes), m.locals) && GlobalsRel(w.m, s.globals, m.globals) && m.out == s.out
  }

  // After an abrupt end inside a statement list only the outer scopes are still wanted.
  ghost predicate OuterRel(w: World, s: State, scopes: seq<Slots>, m: Mem) {
    && |s.scopes| == |scopes| > 0
    && ScopesRel(s.scopes[..|scopes|-1], Visible(scopes)[..|scopes|-1], m.locals)
    && GlobalsRel(w.m, s.globals, m.globals) && m.out == s.out
  }

  lemma SameInnermost<T, U>(a: seq<map<string, T>>, b: seq<map<string, U>>, x: string)
    requires |a| == |b| && forall i | 0 <= i < |a| :: x in a[i] <==> x in b[i]
    ensures Innermost(a, x) == Innermost(b, x)
  {
  }

  lemma VisibleInnermost(s: State, env: Env, x: string)
    requires |s.scopes| == |env.scopes| && x != TEMP
    requires forall i, y | 0 <= i < |s.scopes| :: y in s.scopes[i] <==> y in Visible(env.scopes)[i]
    ensures Innermost(s.scopes, x) == Innermost(env.scopes, x)
  {
    SameInnermost(s.scopes, env.scopes, x);
  }

  // Writing the scratch local disturbs no variable.
  lemma TempKeeps(ss: seq<Scope>, env: Env, locals: seq<Value>, v: Value)
    requires Good(env) && ScopesRel(ss, Visible(env.scopes), locals)
    requires Innermost(env.scopes, TEMP).Some? && TempSlot(env) < |locals|
    ensures ScopesRel(ss, Visible(env.scopes), locals[TempSlot(env) := v])
  {
    var t := TempSlot(env);
    forall i, x | 0 <= i < |ss| && x in ss[i]
      ensures Visible(env.scopes)[i][x] != t
    {
      assert x in Visible(env.scopes)[i];
      assert env.locals[env.scopes[i][x]] == x;
    }
  }

  // Writing a variable's slot writes that variable and no other.
  lemma WriteKeeps(ss: seq<Scope>, env: Env, locals: seq<Value>, i: nat, name: string, v: Value)
    requires Good(env) && ScopesRel(ss, Visible(env.scopes), locals)
    requires i < |ss| && name in ss[i]
    ensures name in env.scopes[i] && env.scopes[i][name] < |locals|
    ensures ScopesRel(ss[i := ss[i][name := v]], Visible(env.scopes), locals[env.scopes[i][name] := v])
  {
    assert name in Visible(env.scopes)[i];
    var slot := env.scopes[i][name];
    forall j, x | 0 <= j < |ss| && x in ss[j] && !(j == i && x == name)
      ensures Visible(env.scopes)[j][x] != slot
    {
      assert x in Visible(env.scopes)[j];
      assert env.locals[env.scopes[j][x]] == x && env.locals[slot] == name;
    }
  }

  // Defining a name changes only the innermost scope.
  lemma DefineVisible(env: Env, name: string)
    requires Good(env) && name != TEMP && env.scopes != []
    ensures var vis, vis' := Visible(env.scopes), Visible(Define(env, name).scopes);
      var top := |env.scopes| - 1;
      && |vis'| == |vis| == |env.scopes|
      && (forall j :: 0 <= j < top ==> vis'[j] == vis[j])
      && vis'[top] == vis[top][name := |env.locals|]
  {
    var top := |env.scopes| - 1;
    var env' := Define(env, name);
    forall j | 0 <= j < top ensures Visible(env'.scopes)[j] == Visible(env.scopes)[j] {
      assert env'.scopes[..top][j] == env.scopes[..top][j];
    }
  }

  // Binding a name in the innermost scope takes a fresh slot.
  lemma BindKeeps(ss: seq<Scope>, env: Env, locals: seq<Value>, name: string, v: Value)
    requires Good(env) && ScopesRel(ss, Visible(env.scopes), locals)
    requires |ss| > 0 && name != TEMP && |env.locals| < |locals|
    ensures ScopesRel(ss[|ss|-1 := ss[|ss|-1][name := v]], Visible(Define(env, name).scopes), locals[|env.locals| := v])
  {
    var top := |ss| - 1;
    var ss' := ss[top := ss[top][name := v]];
    var vis, vis' := Visible(env.scopes), Visible(Define(env, name).scopes);
    DefineVisible(env, name);
    forall j, x | 0 <= j < |ss| && x in ss[j]
      ensures vis[j][x] < |env.locals|
    {
      assert x in vis[j];
      assert vis[j][x] == env.scopes[j][x];
    }
    hide Define, Good;
    forall j, x | 0 <= j < |ss| && x in ss'[j]
      ensures vis'[j][x] < |locals| && locals[|env.locals| := v][vis'[j][x]] == ss'[j][x]
    {
      if !(j == top && x == name) {
        assert x in ss[j];
        assert vis'[j][x] == vis[j][x];
      }
    }
  }

  lemma GlobalsSize(m: Module, globals: map<string, Value>, g: seq<Value>)
    requires GlobalsRel(m, globals, g)
    ensures |g| == |m.globals|
  {
  }

  lemma GlobalKeeps(m: Module, globals: map<string, Value>, g: seq<Value>, name: string, v: Value)
    requires GlobalsRel(m, globals, g) && name in m.globals
    ensures GlobalsRel(m, globals[name := v], g[IndexOf(m.globals, name).value := v])
  {
    var g' := g[IndexOf(m.globals, name).value := v];
    forall x | x in m.globals
      ensures g'[IndexOf(m.globals, x).value] == GetGlobal(globals[name := v], x)
    {
      if x != name {
        assert m.globals[IndexOf(m.globals, x).value] == x;
        assert m.globals[IndexOf(m.globals, name).value] == name;
      }
    }
  }

  lemma {:induction false} ParamsRel(params: seq<string>, vs: seq<Value>)
    requires |params| == |vs|
    ensures forall x :: x in ParamScope(params, vs) <==> x in ParamSlots(params)
    ensures forall x :: x in ParamSlots(params) ==> x in params
    ensures forall x | x in ParamSlots(params) ::
              ParamSlots(params)[x] < |vs| && params[ParamSlots(params)[x]] == x
              && vs[ParamSlots(params)[x]] == ParamScope(params, vs)[x]
  {
    if params != [] {
      var n := |params| - 1;
      ParamsRel(params[..n], vs[..n]);
      assert forall x :: x in ParamScope(params, vs) <==> x in ParamSlots(params);
      forall x | x in ParamSlots(params)
        ensures ParamSlots(params)[x] < |vs| && params[ParamSlots(params)[x]] == x
                && vs[ParamSlots(params)[x]] == ParamScope(params, vs)[x]
      {
        if x != params[n] {
          var i := ParamSlots(params[..n])[x];
          assert params[..n][i] == params[i] && vs[..n][i] == vs[i];
        }
      }
    }
  }

  // A fresh frame holds the arguments in the parameter slots.
  lemma CalleeRel(params: seq<string>, vs: seq<Value>, strings: seq<string>, globals: seq<string>, extra: seq<Value>)
    requires |params| == |vs| && TEMP !in params
    ensures Good(ParamEnv(params, strings, globals))
    ensures ScopesRel([ParamScope(params, vs)], Visible(ParamEnv(params, strings, globals).scopes), vs + extra)
  {
    ParamsRel(params, vs);
    var vis := Visible(ParamEnv(params, strings, globals).scopes);
    assert vis[0] == ParamSlots(params);
  }
}
