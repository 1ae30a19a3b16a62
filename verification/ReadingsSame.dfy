// Every tame run has the same outcome and the same output in the compiler's reading.
module ReadingsSame {
  import opened Wrappers
  import opened Syntax
  import opened Values
  import opened Semantics
  import opened Readings
  import N = Interpreter

  // ---- variables ----

  lemma FindSame(w: Place, a: seq<N.Scope>, b: seq<Scope>, x: string)
    requires ScopesSame(w, a, b)
    ensures !w.Inside? ==> N.Find(a, x) == Innermost(b, x)
    ensures w.Inside? ==>
      var i, j := N.Find(a, x), Innermost(b, x);
      && (j.Some? <==> i.Some? && i.value > 0)
      && (j.Some? ==> b[j.value][x] == a[i.value].vars[x] && if i.value >= 2 then j == i else j.value == 1 || (j.value == 0 && x !in b[1]))
  {
    var i, j := N.Find(a, x), Innermost(b, x);
    if w.Inside? {
      if i.Some? && i.value >= 2 {
        assert x in b[i.value];
      } else if i.Some? && i.value == 1 {
        assert x in (b[0] + b[1]);
      }
    } else {
      if i.Some? { assert x in b[i.value]; }
      if j.Some? { assert x in a[j.value].vars; }
    }
  }

  lemma ReadSame(c: N.Ctx, d: Ctx, k: Rules, w: Place, x: string, s: N.State, t: State)
    requires Reads(c, d, k, w) && Same(w, k, s, t) && ReadOk(k, w, x, s)
    ensures SameRes(w, k, true, s, N.ReadVar(x, s), ReadVar(d, x, t))
  {
    FindSame(w, s.scopes, t.scopes, x);
    if x == N.NONE {
      assert Innermost(t.scopes, x).None?;
      assert x in k.shared + {N.NONE};
    } else if w.Inside? && N.Find(s.scopes, x) == Some(0) {
      assert x in k.shared + {N.NONE};
    }
  }

  lemma WriteScopes(w: Place, a: seq<N.Scope>, b: seq<Scope>, i: nat, j: nat, x: string, v: Value)
    requires ScopesSame(w, a, b) && i < |a| && j < |b| && x in a[i].vars && x in b[j]
    requires if w.Inside? && i < 2 then i == 1 && (j == 1 || (j == 0 && x !in b[1])) else i == j
    ensures ScopesSame(w, a[i := a[i].(vars := a[i].vars[x := v])], b[j := b[j][x := v]])
  {
    var a', b' := a[i := a[i].(vars := a[i].vars[x := v])], b[j := b[j][x := v]];
    if w.Inside? && i == 1 {
      assert a'[1].vars == b'[0] + b'[1];
    }
  }

  lemma WriteSame(c: N.Ctx, d: Ctx, k: Rules, w: Place, x: string, v: Value, s: N.State, t: State)
    requires Reads(c, d, k, w) && Same(w, k, s, t) && WriteOk(k, w, x, s)
    ensures SameRes(w, k, true, s, N.WriteVar(x, v, s), WriteVar(d, x, v, t))
  {
    hide ScopesSame;
    ScopesShape(w, s.scopes, t.scopes);
    FindSame(w, s.scopes, t.scopes, x);
    var a := N.WriteVar(x, v, s);
    if !a.o.Fail? {
      var i, j := N.Find(s.scopes, x).value, Innermost(t.scopes, x).value;
      WriteScopes(w, s.scopes, t.scopes, i, j, x, v);
    }
  }

  lemma ScopesShape(w: Place, a: seq<N.Scope>, b: seq<Scope>)
    requires ScopesSame(w, a, b)
    ensures |a| == |b| && if w.Inside? then |a| >= 2 else if w.Outermost? then |a| == 1 else |a| >= 1
  {
  }

  lemma BindScopes(w: Place, a: seq<N.Scope>, b: seq<Scope>, x: string, v: Value)
    requires ScopesSame(w, a, b)
    ensures |a| == |b| > 0
    ensures ScopesSame(w, a[|a|-1 := N.Bound(a[|a|-1], x, v)], b[|b|-1 := b[|b|-1][x := v]])
  {
    var a', b' := a[|a|-1 := N.Bound(a[|a|-1], x, v)], b[|b|-1 := b[|b|-1][x := v]];
    if w.Inside? && |a| == 2 {
      assert a'[1].vars == b'[0] + b'[1];
    }
  }

  lemma BindSame(c: N.Ctx, d: Ctx, k: Rules, w: Place, x: string, v: Value, s: N.State, t: State)
    requires Reads(c, d, k, w) && Same(w, k, s, t) && BindOk(k, w, x)
    ensures SameRes(w, k, true, s, N.BindVar(x, v, s), BindVar(d, x, v, t))
  {
    hide ScopesSame;
    ScopesShape(w, s.scopes, t.scopes);
    BindScopes(w, s.scopes, t.scopes, x, v);
  }

  lemma PushSame(w: Place, k: Rules, s: N.State, t: State)
    requires Same(w, k, s, t)
    ensures Same(Down(w), k, N.PushScope(s), PushScope(t))
  {
  }

  lemma PopSame(w: Place, k: Rules, s: N.State, t: State, n: nat)
    requires Same(Down(w), k, s, t) && |s.scopes| == n + 1 && (if w.Inside? then n >= 2 else n >= 1) && (w.Outermost? ==> n == 1)
    ensures Same(w, k, N.PopScope(s), PopScope(t))
  {
  }

  // ---- expressions ----

  lemma {:induction false} SameExpr(c: N.Ctx, d: Ctx, k: Rules, w: Place, used: bool, fuel: nat, e: Expr, s: N.State, t: State)
    requires Reads(c, d, k, w) && Same(w, k, s, t) && TameExpr(c, k, w, used, fuel, e, s)
    ensures SameRes(w, k, used, s, N.EvalExpr(c, fuel, e, s), EvalExpr(d, fuel, e, t))
    decreases fuel, e, 2
  {
    hide Reads, Same, ReadOk;
    match e
    case Lit(_) => SelfSame(w, k, s, t);
    case Var(x) => ReadSame(c, d, k, w, x, s, t);
    case Bin(_, _, _) => SameBin(c, d, k, w, fuel, e, s, t);
    case Un(_, x) =>
      ReadsParts(c, d, k, w);
      SameExpr(c, d, k, w, true, fuel, x, s, t);
    case Call(_, _) => SameCall(c, d, k, w, used, fuel, e, s, t);
    case If(_, _, _) => SameIf(c, d, k, w, used, fuel, e, s, t);
    case BlockExpr(b) => SameBlock(c, d, k, w, used, fuel, b, s, t);
    case Coalesce(_, _) => SameCoalesce(c, d, k, w, used, fuel, e, s, t);
    case Loop(_) => SameLoop(c, d, k, w, used, fuel, e, s, t);
  }

  lemma SelfSame(w: Place, k: Rules, s: N.State, t: State)
    requires Same(w, k, s, t)
    ensures s.scopes != []
  {
  }

  lemma ReadsParts(c: N.Ctx, d: Ctx, k: Rules, w: Place)
    requires Reads(c, d, k, w)
    ensures d.mode == k.mode && d.prims == c.prims && c.prims.Valid() && d.funs == c.funs && c.captured == map[]
    ensures forall w': Place | w'.Inside? == w.Inside? :: Reads(c, d, k, w')
    ensures Reads(c, d.(top := false), k, Inside)
  {
  }

  lemma {:induction false} SameBin(c: N.Ctx, d: Ctx, k: Rules, w: Place, fuel: nat, e: Expr, s: N.State, t: State)
    requires e.Bin? && Reads(c, d, k, w) && Same(w, k, s, t) && TameExpr(c, k, w, true, fuel, e, s)
    ensures SameRes(w, k, true, s, N.EvalExpr(c, fuel, e, s), EvalExpr(d, fuel, e, t))
    decreases fuel, e, 1
  {
    hide Reads, Same;
    ReadsParts(c, d, k, w);
    SameExpr(c, d, k, w, true, fuel, e.left, s, t);
    var x, y := N.EvalExpr(c, fuel, e.left, s), EvalExpr(d, fuel, e.left, t);
    if x.o.Norm? && (k.mode.Vm? || NeedsRight(c.prims, e.op, x.o.v)) {
      SameExpr(c, d, k, w, true, fuel, e.right, x.st, y.st);
      var x', y' := N.EvalExpr(c, fuel, e.right, x.st), EvalExpr(d, fuel, e.right, y.st);
      if Unchanged(x.st, x'.st) { StillSame(w, k, x.st, x'.st, y'.st); }
    }
  }

  // What corresponds to a state corresponds to an unchanged one.
  lemma StillSame(w: Place, k: Rules, a: N.State, b: N.State, t: State)
    requires Unchanged(a, b)
    ensures Same(w, k, a, t) <==> Same(w, k, b, t)
  {
  }

  lemma {:induction false} SameIf(c: N.Ctx, d: Ctx, k: Rules, w: Place, used: bool, fuel: nat, e: Expr, s: N.State, t: State)
    requires e.If? && Reads(c, d, k, w) && Same(w, k, s, t) && TameExpr(c, k, w, used, fuel, e, s)
    ensures SameRes(w, k, used, s, N.EvalExpr(c, fuel, e, s), EvalExpr(d, fuel, e, t))
    decreases fuel, e, 1
  {
    hide Reads, Same;
    ReadsParts(c, d, k, w);
    SameExpr(c, d, k, w, true, fuel, e.cond, s, t);
    var x, y := N.EvalExpr(c, fuel, e.cond, s), EvalExpr(d, fuel, e.cond, t);
    if x.o == Norm(Bool(true)) {
      SameBlock(c, d, k, w, used, fuel, e.thn, x.st, y.st);
    } else if x.o == Norm(Bool(false)) && e.els.Some? {
      SameBlock(c, d, k, w, used, fuel, e.els.value, x.st, y.st);
    }
  }

  lemma {:induction false} SameCoalesce(c: N.Ctx, d: Ctx, k: Rules, w: Place, used: bool, fuel: nat, e: Expr, s: N.State, t: State)
    requires e.Coalesce? && Reads(c, d, k, w) && Same(w, k, s, t) && TameExpr(c, k, w, used, fuel, e, s)
    ensures SameRes(w, k, used, s, N.EvalExpr(c, fuel, e, s), EvalExpr(d, fuel, e, t))
    decreases fuel, e, 1
  {
    hide Reads, Same;
    SameExpr(c, d, k, w, true, fuel, e.first, s, t);
    var x, y := N.EvalExpr(c, fuel, e.first, s), EvalExpr(d, fuel, e.first, t);
    if x.o == Norm(Null) {
      SameExpr(c, d, k, w, used, fuel, e.default, x.st, y.st);
    }
  }

  lemma {:induction false} SameLoop(c: N.Ctx, d: Ctx, k: Rules, w: Place, used: bool, fuel: nat, e: Expr, s: N.State, t: State)
    requires e.Loop? && Reads(c, d, k, w) && Same(w, k, s, t) && TameExpr(c, k, w, used, fuel, e, s)
    ensures SameRes(w, k, used, s, N.EvalExpr(c, fuel, e, s), EvalExpr(d, fuel, e, t))
    decreases fuel, e, 1
  {
    hide Reads, Same;
    if fuel > 0 {
      SameBlock(c, d, k, w, false, fuel, e.body, s, t);
      var x, y := N.EvalBlock(c, fuel, e.body, s), EvalBlock(d, fuel, e.body, t);
      if x.o.Norm? || x.o.Cont? {
        SameExpr(c, d, k, w, used, fuel - 1, e, x.st, y.st);
      }
    }
  }

  lemma {:induction false} SameArgs(c: N.Ctx, d: Ctx, k: Rules, w: Place, fuel: nat, args: seq<Expr>, s: N.State, t: State)
    requires Reads(c, d, k, w) && Same(w, k, s, t) && TameArgs(c, k, w, fuel, args, s)
    ensures var x, y := N.EvalArgs(c, fuel, args, s), EvalArgs(d, fuel, args, t);
      SameRes(w, k, false, s, N.Res(x.o, x.st), Res(y.o, y.st)) && (x.o.Norm? ==> y.vs == x.vs)
    decreases fuel, args, 0
  {
    hide Reads, Same;
    if args == [] {
      SelfSame(w, k, s, t);
    } else {
      SameExpr(c, d, k, w, true, fuel, args[0], s, t);
      var x, y := N.EvalExpr(c, fuel, args[0], s), EvalExpr(d, fuel, args[0], t);
      if x.o.Norm? {
        SameArgs(c, d, k, w, fuel, args[1..], x.st, y.st);
      }
    }
  }

  // ---- calls ----

  lemma {:induction false} ParamsSame(start: N.Scope, params: seq<string>, vs: seq<Value>)
    requires |params| == |vs|
    ensures N.Bindings(start, params, vs).vars == start.vars + ParamScope(params, vs)
    ensures forall x | x in ParamScope(params, vs) :: x in params
  {
    if params != [] {
      var n := |params| - 1;
      ParamsSame(start, params[..n], vs[..n]);
    }
  }

  // The callee of the interpreter starts in one scope, the compiled one in two.
  lemma EntrySame(c: N.Ctx, d: Ctx, k: Rules, w: Place, f: FnDecl, vs: seq<Value>, s: N.State, t: State)
    requires Reads(c, d, k, w) && Same(w, k, s, t) && |f.params| == |vs|
    requires forall x | x in f.params :: BindOk(k, Inside, x)
    ensures Same(Inside, k, N.Entry(c, f, vs, s), PushScope(State([ParamScope(f.params, vs)], t.globals, t.out)))
    ensures N.Entry(c, f, vs, s).scopes[0] == s.scopes[0] && Accepts(d, f.params, |vs|)
  {
    hide Reads, ScopesSame, N.Bindings, ParamScope;
    ReadsParts(c, d, k, w);
    SameShape(w, k, s, t);
    ParamsSame(N.Scope(map[], {}), f.params, vs);
    var p, b := ParamScope(f.params, vs), N.Bindings(N.Scope(map[], {}), f.params, vs);
    TwoScopes(s.scopes[0], b, p);
    assert N.Entry(c, f, vs, s).scopes == [s.scopes[0], b];
    assert [p] + [map[]] == [p, map[]];
  }

  lemma TwoScopes(top: N.Scope, b: N.Scope, p: Scope)
    requires b.vars == map[] + p
    ensures ScopesSame(Inside, [top, b], [p, map[]])
  {
    assert b.vars == p + map[];
  }

  // Coming back, the caller finds its own scopes as they were.
  lemma BackSame(w: Place, k: Rules, s: N.State, t: State, a: N.State, b: State)
    requires Same(w, k, s, t) && Same(Inside, k, a, b) && a.scopes[0] == s.scopes[0]
    ensures Same(w, k, N.Back(a, s), State(t.scopes, b.globals, b.out))
    ensures N.Back(a, s).scopes[0] == s.scopes[0]
  {
    assert N.Back(a, s).scopes == s.scopes;
  }

  lemma {:induction false} SameCall(c: N.Ctx, d: Ctx, k: Rules, w: Place, used: bool, fuel: nat, e: Expr, s: N.State, t: State)
    requires e.Call? && Reads(c, d, k, w) && Same(w, k, s, t) && TameExpr(c, k, w, used, fuel, e, s)
    ensures SameRes(w, k, used, s, N.EvalExpr(c, fuel, e, s), EvalExpr(d, fuel, e, t))
    decreases fuel, e, 1
  {
    hide Reads, Same, N.EvalExpr, EvalExpr, N.EvalArgs, EvalArgs, TameExpr, TameBody, N.EvalBody, EvalBody;
    ReadsParts(c, d, k, w);
    CallTame(c, k, w, used, fuel, e, s);
    SameArgs(c, d, k, w, fuel, e.args, s, t);
    var x, y := N.EvalArgs(c, fuel, e.args, s), EvalArgs(d, fuel, e.args, t);
    CallMeans(d, fuel, e, t);
    if x.o.Norm? && fuel > 0 {
      SameInvoke(c, d, k, w, used, fuel - 1, e.fn, x.vs, x.st, y.st);
    }
  }

  lemma CallTame(c: N.Ctx, k: Rules, w: Place, used: bool, fuel: nat, e: Expr, s: N.State)
    requires e.Call? && TameExpr(c, k, w, used, fuel, e, s)
    ensures var x := N.EvalArgs(c, fuel, e.args, s);
      && TameArgs(c, k, w, fuel, e.args, s)
      && (x.o.Norm? && fuel > 0 ==> TameInvoke(c, k, used, fuel - 1, e.fn, x.vs, x.st))
      && N.EvalExpr(c, fuel, e, s) ==
           if !x.o.Norm? then N.Res(x.o, x.st) else if fuel == 0 then N.Res(Fail, x.st) else N.Invoke(c, fuel - 1, e.fn, x.vs, x.st)
  {
  }

  // A call in compiled code, from its arguments on.
  function Invoked(d: Ctx, fuel: nat, fn: string, vs: seq<Value>, t: State): Res {
    if fn !in d.funs && d.mode.Vm? then Res(Norm(Null), t)
    else if fn !in d.funs || !Accepts(d, d.funs[fn].params, |vs|) then Res(Fail, t)
    else
      var params := d.funs[fn].params;
      var b := EvalBlock(d.(top := false), fuel, d.funs[fn].body, State([ParamScope(params, Fitted(vs, |params|))], t.globals, t.out));
      var back := State(t.scopes, b.st.globals, b.st.out);
      if b.o.Norm? || b.o.Ret? then Res(Norm(b.o.v), back) else if b.o.Thrown? then Res(b.o, back) else Res(Fail, back)
  }

  lemma CallMeans(d: Ctx, fuel: nat, e: Expr, t: State)
    requires e.Call?
    ensures var a := EvalArgs(d, fuel, e.args, t);
      EvalExpr(d, fuel, e, t) ==
        if !a.o.Norm? then Res(a.o, a.st) else if fuel == 0 then Res(Fail, a.st) else Invoked(d, fuel - 1, e.fn, a.vs, a.st)
  {
  }

  lemma {:induction false} SameInvoke(c: N.Ctx, d: Ctx, k: Rules, w: Place, used: bool, fuel: nat, fn: string, vs: seq<Value>, s: N.State, t: State)
    requires Reads(c, d, k, w) && Same(w, k, s, t) && TameInvoke(c, k, used, fuel, fn, vs, s)
    ensures SameRes(w, k, used, s, N.Invoke(c, fuel, fn, vs, s), Invoked(d, fuel, fn, vs, t))
    decreases fuel
  {
    hide Reads, Same, N.EvalBody, EvalBody, TameBody, N.Entry, N.Back;
    ReadsParts(c, d, k, w);
    if fn in c.funs && |c.funs[fn].params| == |vs| {
      var f := c.funs[fn];
      EntrySame(c, d, k, w, f, vs, s, t);
      var a0, b0 := N.Entry(c, f, vs, s), State([ParamScope(f.params, vs)], t.globals, t.out);
      SameBody(c, d.(top := false), k, Inside, used, fuel, f.body, a0, PushScope(b0));
      var a, b := N.EvalBody(c, fuel, f.body, a0), EvalBody(d.(top := false), fuel, f.body, PushScope(b0));
      if !a.o.Fail? {
        BackSame(w, k, s, t, a.st, b.st);
        SameShape(w, k, s, t);
        BlockMeans(d.(top := false), fuel, f.body, b0);
      }
    }
  }

  lemma BlockMeans(d: Ctx, fuel: nat, b: Block, t: State)
    ensures var r := EvalBody(d, fuel, b, PushScope(t)); EvalBlock(d, fuel, b, t) == Res(r.o, PopScope(r.st))
  {
  }

  // ---- blocks and statements ----

  lemma {:induction false} SameBlock(c: N.Ctx, d: Ctx, k: Rules, w: Place, used: bool, fuel: nat, b: Block, s: N.State, t: State)
    requires Reads(c, d, k, w) && Same(w, k, s, t) && TameBlock(c, k, w, used, fuel, b, s)
    ensures SameRes(w, k, used, s, N.EvalBlock(c, fuel, b, s), EvalBlock(d, fuel, b, t))
    decreases fuel, b, 1
  {
    hide Reads, Same, ScopesSame;
    ReadsParts(c, d, k, w);
    PushSame(w, k, s, t);
    SameShape(w, k, s, t);
    SameBody(c, d, k, Down(w), used, fuel, b, N.PushScope(s), PushScope(t));
    var x, y := N.EvalBody(c, fuel, b, N.PushScope(s)), EvalBody(d, fuel, b, PushScope(t));
    if !x.o.Fail? {
      PopSame(w, k, x.st, y.st, |s.scopes|);
    }
  }

  lemma SameShape(w: Place, k: Rules, s: N.State, t: State)
    requires Same(w, k, s, t)
    ensures (if w.Inside? then |s.scopes| >= 2 else |s.scopes| >= 1) && (w.Outermost? ==> |s.scopes| == 1)
  {
  }

  lemma {:induction false} SameBody(c: N.Ctx, d: Ctx, k: Rules, w: Place, used: bool, fuel: nat, b: Block, s: N.State, t: State)
    requires Reads(c, d, k, w) && Same(w, k, s, t) && TameBody(c, k, w, used, fuel, b, s)
    ensures SameRes(w, k, used, s, N.EvalBody(c, fuel, b, s), EvalBody(d, fuel, b, t))
    decreases fuel, b, 0
  {
    hide Reads, Same;
    SameStmts(c, d, k, w, fuel, b.stmts, Null, s, t);
    var x, y := N.EvalStmts(c, fuel, b.stmts, Null, s), EvalStmts(d, fuel, b.stmts, t);
    if x.o.Norm? && b.tail.Some? {
      SameExpr(c, d, k, w, used, fuel, b.tail.value, x.st, y.st);
    }
  }

  lemma {:induction false} SameStmts(c: N.Ctx, d: Ctx, k: Rules, w: Place, fuel: nat, ss: seq<Stmt>, last: Value, s: N.State, t: State)
    requires Reads(c, d, k, w) && Same(w, k, s, t) && TameStmts(c, k, w, fuel, ss, s)
    ensures SameRes(w, k, false, s, N.EvalStmts(c, fuel, ss, last, s), EvalStmts(d, fuel, ss, t))
    decreases fuel, ss, 0
  {
    hide Reads, Same;
    if ss == [] {
      SelfSame(w, k, s, t);
    } else {
      SameStmt(c, d, k, w, fuel, ss[0], s, t);
      var x, y := N.EvalStmt(c, fuel, ss[0], s), EvalStmt(d, fuel, ss[0], t);
      if x.o.Norm? {
        SameStmts(c, d, k, w, fuel, ss[1..], x.o.v, x.st, y.st);
      }
    }
  }

  lemma OutputSame(w: Place, k: Rules, s: N.State, t: State, text: string)
    requires Same(w, k, s, t)
    ensures Same(w, k, s.(out := s.out + [text]), t.(out := t.out + [text]))
  {
  }

  lemma {:induction false} SameStmt(c: N.Ctx, d: Ctx, k: Rules, w: Place, fuel: nat, st: Stmt, s: N.State, t: State)
    requires Reads(c, d, k, w) && Same(w, k, s, t) && TameStmt(c, k, w, fuel, st, s)
    ensures SameRes(w, k, false, s, N.EvalStmt(c, fuel, st, s), EvalStmt(d, fuel, st, t))
    decreases fuel, st, 2
  {
    hide Reads, Same, WriteOk, BindOk;
    ReadsParts(c, d, k, w);
    match st
    case Let(x, e) =>
      SameExpr(c, d, k, w, true, fuel, e, s, t);
      var a, b := N.EvalExpr(c, fuel, e, s), EvalExpr(d, fuel, e, t);
      if a.o.Norm? { BindSame(c, d, k, w, x, a.o.v, a.st, b.st); }
    case Assign(x, e) =>
      SameExpr(c, d, k, w, true, fuel, e, s, t);
      var a, b := N.EvalExpr(c, fuel, e, s), EvalExpr(d, fuel, e, t);
      if a.o.Norm? { WriteSame(c, d, k, w, x, a.o.v, a.st, b.st); }
    case Output(e) =>
      SameExpr(c, d, k, w, true, fuel, e, s, t);
      var a, b := N.EvalExpr(c, fuel, e, s), EvalExpr(d, fuel, e, t);
      if a.o.Norm? { OutputSame(w, k, a.st, b.st, c.prims.show(a.o.v)); }
    case ExprStmt(e) => SameExpr(c, d, k, w, false, fuel, e, s, t);
    case While(_, _) => SameWhile(c, d, k, w, fuel, st, Null, s, t);
    case DoWhile(_, _) => SameDoWhile(c, d, k, w, fuel, st, Null, s, t);
    case Break => SelfSame(w, k, s, t);
    case Continue => SelfSame(w, k, s, t);
    case Return(x) => if x.Some? { SameExpr(c, d, k, w, true, fuel, x.value, s, t); } else { SelfSame(w, k, s, t); }
    case Throw(x) => SameExpr(c, d, k, w, true, fuel, x, s, t);
    case FnDef(_) =>
  }

  // ---- loops ----

  // A jump in a condition leaves the loop in the interpreter only: the compiled loop never ends by a jump.
  lemma {:induction false} SameWhile(c: N.Ctx, d: Ctx, k: Rules, w: Place, fuel: nat, st: Stmt, last: Value, s: N.State, t: State)
    requires st.While? && Reads(c, d, k, w) && Same(w, k, s, t) && TameWhile(c, k, w, fuel, st, s)
    ensures var r := N.EvalWhile(c, fuel, st, last, s);
      && !Jump(EvalStmt(d, fuel, st, t).o)
      && (!Jump(r.o) ==> SameRes(w, k, false, s, r, EvalStmt(d, fuel, st, t)))
    decreases fuel, st, 1
  {
    hide Reads, Same, N.EvalExpr, EvalExpr, N.EvalBlock, EvalBlock, EvalStmt, TameExpr, TameBlock;
    ReadsParts(c, d, k, w);
    NoJump(d, fuel, st, t);
    if fuel > 0 {
      WhileMeans(d, fuel, st, t);
      SameExpr(c, d, k, w, true, fuel, st.cond, s, t);
      var x, y := N.EvalExpr(c, fuel, st.cond, s), EvalExpr(d, fuel, st.cond, t);
      if x.o == Norm(Bool(true)) {
        SameBlock(c, d, k, w, false, fuel, st.body, x.st, y.st);
        var a, b := N.EvalBlock(c, fuel, st.body, x.st), EvalBlock(d, fuel, st.body, y.st);
        if a.o.Norm? || a.o.Cont? {
          SameWhile(c, d, k, w, fuel - 1, st, if a.o.Norm? then a.o.v else last, a.st, b.st);
        }
      }
    }
  }

  lemma {:induction false} SameDoWhile(c: N.Ctx, d: Ctx, k: Rules, w: Place, fuel: nat, st: Stmt, last: Value, s: N.State, t: State)
    requires st.DoWhile? && Reads(c, d, k, w) && Same(w, k, s, t) && TameDoWhile(c, k, w, fuel, st, s)
    ensures var r := N.EvalDoWhile(c, fuel, st, last, s);
      && !Jump(EvalStmt(d, fuel, st, t).o)
      && (!Jump(r.o) ==> SameRes(w, k, false, s, r, EvalStmt(d, fuel, st, t)))
    decreases fuel, st, 1
  {
    hide Reads, Same, N.EvalExpr, EvalExpr, N.EvalBlock, EvalBlock, EvalStmt, TameExpr, TameBlock;
    ReadsParts(c, d, k, w);
    NoJump(d, fuel, st, t);
    if fuel > 0 {
      DoWhileMeans(d, fuel, st, t);
      SameBlock(c, d, k, w, false, fuel, st.body, s, t);
      var a, b := N.EvalBlock(c, fuel, st.body, s), EvalBlock(d, fuel, st.body, t);
      if a.o.Norm? || a.o.Cont? {
        var now := if a.o.Norm? then a.o.v else last;
        SameExpr(c, d, k, w, true, fuel, st.cond, a.st, b.st);
        var x, y := N.EvalExpr(c, fuel, st.cond, a.st), EvalExpr(d, fuel, st.cond, b.st);
        if x.o == Norm(Bool(true)) {
          if a.o.Cont? && k.mode.Ir? {
            StillSame(w, k, a.st, x.st, b.st);
            SameDoWhile(c, d, k, w, fuel - 1, st, now, x.st, b.st);
          } else {
            SameDoWhile(c, d, k, w, fuel - 1, st, now, x.st, y.st);
          }
        }
      }
    }
  }

  // One round of a compiled loop.
  lemma WhileMeans(d: Ctx, fuel: nat, st: Stmt, t: State)
    requires st.While? && fuel > 0
    ensures var x := EvalExpr(d, fuel, st.cond, t);
      var b := EvalBlock(d, fuel, st.body, x.st);
      EvalStmt(d, fuel, st, t) ==
        if x.o.Brk? then Res(Norm(Null), x.st)
        else if x.o.Cont? then EvalStmt(d, fuel - 1, st, x.st)
        else if !x.o.Norm? then x
        else if Decides(d, x.o.v).None? then Res(Fail, x.st)
        else if !Decides(d, x.o.v).value then Res(Norm(Null), x.st)
        else if b.o.Norm? || b.o.Cont? then EvalStmt(d, fuel - 1, st, b.st)
        else if b.o.Brk? then Res(Norm(Null), b.st)
        else b
  {
  }

  lemma DoWhileMeans(d: Ctx, fuel: nat, st: Stmt, t: State)
    requires st.DoWhile? && fuel > 0
    ensures var b := EvalBlock(d, fuel, st.body, t);
      var x := EvalExpr(d, fuel, st.cond, b.st);
      EvalStmt(d, fuel, st, t) ==
        if b.o.Brk? then Res(Norm(Null), b.st)
        else if b.o.Cont? && d.mode.Ir? then EvalStmt(d, fuel - 1, st, b.st)
        else if !b.o.Norm? && !b.o.Cont? then b
        else if x.o.Brk? then Res(Norm(Null), x.st)
        else if x.o.Cont? then EvalStmt(d, fuel - 1, st, x.st)
        else if !x.o.Norm? then x
        else if Decides(d, x.o.v).None? then Res(Fail, x.st)
        else if Decides(d, x.o.v).value then EvalStmt(d, fuel - 1, st, x.st)
        else Res(Norm(Null), x.st)
  {
  }

  // A compiled loop catches every jump of its condition and of its body.
  lemma {:induction false} NoJump(d: Ctx, fuel: nat, st: Stmt, t: State)
    requires st.While? || st.DoWhile?
    ensures !Jump(EvalStmt(d, fuel, st, t).o)
    decreases fuel
  {
    if fuel > 0 {
      if st.While? {
        var x := EvalExpr(d, fuel, st.cond, t);
        NoJump(d, fuel - 1, st, x.st);
        NoJump(d, fuel - 1, st, EvalBlock(d, fuel, st.body, x.st).st);
      } else {
        var b := EvalBlock(d, fuel, st.body, t);
        NoJump(d, fuel - 1, st, b.st);
        NoJump(d, fuel - 1, st, EvalExpr(d, fuel, st.cond, b.st).st);
      }
    }
  }
}
