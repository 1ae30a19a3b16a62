// The tree-walking interpreter (src/syntax/interpreter.rs) as a big-step evaluator with
// fuel.  It is the program's meaning as the repository defines it; the compilers and the
// optimizer are measured against it.
module Interpreter {
  import opened Wrappers
  import opened Syntax
  import opened Values

  // The bindings of one scope; those in `fixed` cannot be assigned.
  datatype Scope = Scope(vars: map<string, Value>, fixed: set<string>)

  // `captured` holds, for some functions, bindings that each of their calls starts with.
  datatype Ctx = Ctx(prims: Prims, funs: map<string, FnDecl>, captured: map<string, Scope>)

  // The first scope is the top level, which every function sees.
  datatype State = State(scopes: seq<Scope>, out: seq<string>)

  datatype Res = Res(o: Outcome, st: State)

  datatype ArgsRes = ArgsRes(o: Outcome, vs: seq<Value>, st: State)

  // The built-in constant, whatever is bound to that name.
  const NONE := "None"

  function Find(scopes: seq<Scope>, name: string): (r: Option<nat>)
    ensures r.Some? ==> r.value < |scopes| && name in scopes[r.value].vars
    ensures r.Some? ==> forall j :: r.value < j < |scopes| ==> name !in scopes[j].vars
    ensures r.None? ==> forall j :: 0 <= j < |scopes| ==> name !in scopes[j].vars
  {
    if scopes == [] then None
    else if name in scopes[|scopes|-1].vars then Some(|scopes|-1)
    else Find(scopes[..|scopes|-1], name)
  }

  function ReadVar(name: string, s: State): Res {
    if name == NONE then Res(Norm(Null), s)
    else
      match Find(s.scopes, name)
      case Some(i) => Res(Norm(s.scopes[i].vars[name]), s)
      case None => Res(Fail, s)
  }

  // Assigning an unbound or fixed name is an error.
  function WriteVar(name: string, v: Value, s: State): (r: Res)
    ensures |r.st.scopes| == |s.scopes|
  {
    match Find(s.scopes, name)
    case Some(i) =>
      var scope := s.scopes[i];
      if name in scope.fixed then Res(Fail, s)
      else Res(Norm(v), s.(scopes := s.scopes[i := scope.(vars := scope.vars[name := v])]))
    case None => Res(Fail, s)
  }

  function Bound(scope: Scope, name: string, v: Value): Scope {
    Scope(scope.vars[name := v], scope.fixed - {name})
  }

  function BindVar(name: string, v: Value, s: State): (r: Res)
    ensures |r.st.scopes| == |s.scopes|
  {
    if s.scopes == [] then Res(Fail, s)
    else
      var top := |s.scopes| - 1;
      Res(Norm(v), s.(scopes := s.scopes[top := Bound(s.scopes[top], name, v)]))
  }

  function PushScope(s: State): State {
    s.(scopes := s.scopes + [Scope(map[], {})])
  }

  function PopScope(s: State): (r: State)
    requires s.scopes != []
    ensures |r.scopes| == |s.scopes| - 1
  {
    s.(scopes := s.scopes[..|s.scopes|-1])
  }

  function TopLevel(s: State): Scope {
    if s.scopes == [] then Scope(map[], {}) else s.scopes[0]
  }

  // Parameters are fixed; a later one of the same name wins.
  function Bindings(start: Scope, params: seq<string>, vs: seq<Value>): Scope
    requires |params| == |vs|
  {
    if params == [] then start
    else
      var n := |params| - 1;
      var rest := Bindings(start, params[..n], vs[..n]);
      Scope(rest.vars[params[n] := vs[n]], rest.fixed + {params[n]})
  }

  // A call sees the top level and a scope of its own; the caller's scopes are out of sight.
  function Entry(c: Ctx, f: FnDecl, vs: seq<Value>, s: State): (r: State)
    requires |f.params| == |vs|
    ensures |r.scopes| == 2
  {
    var start := if f.name in c.captured then c.captured[f.name] else Scope(map[], {});
    State([TopLevel(s), Bindings(start, f.params, vs)], s.out)
  }

  // What the callee did to top-level variables is seen by the caller.
  function Back(callee: State, caller: State): (r: State)
    requires callee.scopes != []
    ensures |r.scopes| == |caller.scopes|
  {
    State(if caller.scopes == [] then [] else [callee.scopes[0]] + caller.scopes[1..], callee.out)
  }

  function Lift(o: Option<Value>, s: State): Res {
    Res(if o.Some? then Norm(o.value) else Fail, s)
  }

  function EvalExpr(c: Ctx, fuel: nat, e: Expr, s: State): (r: Res)
    ensures |r.st.scopes| == |s.scopes|
    decreases fuel, e, 1
  {
    match e
    case Lit(v) => Res(Norm(v), s)
    case Var(name) => ReadVar(name, s)
    case Bin(op, left, right) =>
      var l := EvalExpr(c, fuel, left, s);
      if !l.o.Norm? then l
      else if op.And? then
        if c.prims.truthy(l.o.v) then EvalExpr(c, fuel, right, l.st) else l
      else if op.Or? then
        if c.prims.truthy(l.o.v) then l else EvalExpr(c, fuel, right, l.st)
      else
        var r := EvalExpr(c, fuel, right, l.st);
        if r.o.Norm? then Lift(c.prims.bin(op, l.o.v, r.o.v), r.st) else r
    case Un(uop, operand) =>
      var x := EvalExpr(c, fuel, operand, s);
      if !x.o.Norm? then x
      else if uop.Not? then Res(Norm(Bool(!c.prims.truthy(x.o.v))), x.st)
      else Lift(c.prims.neg(x.o.v), x.st)
    case Call(fn, args) =>
      var a := EvalArgs(c, fuel, args, s);
      if !a.o.Norm? then Res(a.o, a.st)
      else if fuel == 0 then Res(Fail, a.st)
      else Invoke(c, fuel - 1, fn, a.vs, a.st)
    case If(cond, thn, els) =>
      var x := EvalExpr(c, fuel, cond, s);
      if !x.o.Norm? then x
      else if !x.o.v.Bool? then Res(Fail, x.st)
      else if x.o.v.b then EvalBlock(c, fuel, thn, x.st)
      else if els.Some? then EvalBlock(c, fuel, els.value, x.st)
      else Res(Norm(Null), x.st)
    case BlockExpr(block) => EvalBlock(c, fuel, block, s)
    case Coalesce(first, default) =>
      var x := EvalExpr(c, fuel, first, s);
      if x.o == Norm(Null) then EvalExpr(c, fuel, default, x.st) else x
    case Loop(body) =>
      if fuel == 0 then Res(Fail, s)
      else
        var b := EvalBlock(c, fuel, body, s);
        if b.o.Norm? || b.o.Cont? then EvalExpr(c, fuel - 1, e, b.st)
        else if b.o.Brk? then Res(Norm(Null), b.st)
        else b
  }

  function EvalArgs(c: Ctx, fuel: nat, args: seq<Expr>, s: State): (r: ArgsRes)
    ensures |r.st.scopes| == |s.scopes|
    ensures r.o.Norm? ==> |r.vs| == |args|
    decreases fuel, args, 0
  {
    if args == [] then ArgsRes(Norm(Null), [], s)
    else
      var x := EvalExpr(c, fuel, args[0], s);
      if !x.o.Norm? then ArgsRes(x.o, [], x.st)
      else
        var rest := EvalArgs(c, fuel, args[1..], x.st);
        rest.(vs := [x.o.v] + rest.vs)
  }

  // A jump cannot leave a function.
  function Returned(b: Res, caller: State): (r: Res)
    requires b.st.scopes != []
    ensures |r.st.scopes| == |caller.scopes|
    ensures r.o.Norm? || r.o.Thrown? || r.o.Fail?
  {
    var back := Back(b.st, caller);
    if b.o.Norm? || b.o.Ret? then Res(Norm(b.o.v), back)
    else if b.o.Thrown? then Res(b.o, back)
    else Res(Fail, back)
  }

  function Invoke(c: Ctx, fuel: nat, fn: string, vs: seq<Value>, s: State): (r: Res)
    ensures |r.st.scopes| == |s.scopes|
    ensures r.o.Norm? || r.o.Thrown? || r.o.Fail?
    decreases fuel
  {
    if fn !in c.funs || |c.funs[fn].params| != |vs| then Res(Fail, s)
    else Returned(EvalBody(c, fuel, c.funs[fn].body, Entry(c, c.funs[fn], vs, s)), s)
  }

  function EvalBlock(c: Ctx, fuel: nat, b: Block, s: State): (r: Res)
    ensures |r.st.scopes| == |s.scopes|
    decreases fuel, b, 1
  {
    var r := EvalBody(c, fuel, b, PushScope(s));
    Res(r.o, PopScope(r.st))
  }

  // The statements and the tail of a block or function, without a scope of their own.
  function EvalBody(c: Ctx, fuel: nat, b: Block, s: State): (r: Res)
    ensures |r.st.scopes| == |s.scopes|
    decreases fuel, b, 0
  {
    var r := EvalStmts(c, fuel, b.stmts, Null, s);
    if !r.o.Norm? || b.tail.None? then r else EvalExpr(c, fuel, b.tail.value, r.st)
  }

  // A list that ends normally has the value of its last statement; `last` is the value so far.
  function EvalStmts(c: Ctx, fuel: nat, ss: seq<Stmt>, last: Value, s: State): (r: Res)
    ensures |r.st.scopes| == |s.scopes|
    decreases fuel, ss, 0
  {
    if ss == [] then Res(Norm(last), s)
    else
      var r := EvalStmt(c, fuel, ss[0], s);
      if r.o.Norm? then EvalStmts(c, fuel, ss[1..], r.o.v, r.st) else r
  }

  // Definitions inside blocks change the table of functions, which is not part of this model.
  function EvalStmt(c: Ctx, fuel: nat, st: Stmt, s: State): (r: Res)
    ensures |r.st.scopes| == |s.scopes|
    decreases fuel, st, 1
  {
    match st
    case Let(name, value) =>
      var x := EvalExpr(c, fuel, value, s);
      if x.o.Norm? then BindVar(name, x.o.v, x.st) else x
    case Assign(name, value) =>
      var x := EvalExpr(c, fuel, value, s);
      if x.o.Norm? then WriteVar(name, x.o.v, x.st) else x
    case Output(value) =>
      var x := EvalExpr(c, fuel, value, s);
      if x.o.Norm? then Res(x.o, x.st.(out := x.st.out + [c.prims.show(x.o.v)])) else x
    case ExprStmt(e) => EvalExpr(c, fuel, e, s)
    case While(_, _) => EvalWhile(c, fuel, st, Null, s)
    case DoWhile(_, _) => EvalDoWhile(c, fuel, st, Null, s)
    case Break => Res(Brk, s)
    case Continue => Res(Cont, s)
    case Return(result) =>
      if result.None? then Res(Ret(Null), s)
      else
        var x := EvalExpr(c, fuel, result.value, s);
        if x.o.Norm? then Res(Ret(x.o.v), x.st) else x
    case Throw(value) =>
      var x := EvalExpr(c, fuel, value, s);
      if x.o.Norm? then Res(Thrown(x.o.v), x.st) else x
    case FnDef(_) => Res(Fail, s)
  }

  // The value is that of the last iteration that ended normally, or null after a break.  A jump
  // in the condition is not caught here: it belongs to the loop around this one.
  function EvalWhile(c: Ctx, fuel: nat, st: Stmt, last: Value, s: State): (r: Res)
    requires st.While?
    ensures |r.st.scopes| == |s.scopes|
    decreases fuel, st, 0
  {
    if fuel == 0 then Res(Fail, s)
    else
      var x := EvalExpr(c, fuel, st.cond, s);
      if !x.o.Norm? then x
      else if !x.o.v.Bool? then Res(Fail, x.st)
      else if !x.o.v.b then Res(Norm(last), x.st)
      else
        var b := EvalBlock(c, fuel, st.body, x.st);
        if b.o.Norm? || b.o.Cont? then EvalWhile(c, fuel - 1, st, if b.o.Norm? then b.o.v else last, b.st)
        else if b.o.Brk? then Res(Norm(Null), b.st)
        else b
  }

  function EvalDoWhile(c: Ctx, fuel: nat, st: Stmt, last: Value, s: State): (r: Res)
    requires st.DoWhile?
    ensures |r.st.scopes| == |s.scopes|
    decreases fuel, st, 0
  {
    if fuel == 0 then Res(Fail, s)
    else
      var b := EvalBlock(c, fuel, st.body, s);
      if b.o.Brk? then Res(Norm(Null), b.st)
      else if !b.o.Norm? && !b.o.Cont? then b
      else
        var now := if b.o.Norm? then b.o.v else last;
        var x := EvalExpr(c, fuel, st.cond, b.st);
        if !x.o.Norm? then x
        else if !x.o.v.Bool? then Res(Fail, x.st)
        else if x.o.v.b then EvalDoWhile(c, fuel - 1, st, now, x.st)
        else Res(Norm(now), x.st)
  }

  // ---- whole programs ----

  // What is executed at the top level when there is no `main`: everything but definitions.
  function Code(p: Program): (r: seq<Stmt>)
    ensures forall st | st in r :: !st.FnDef?
  {
    if p == [] then [] else if p[0].FnDef? then Code(p[1..]) else [p[0]] + Code(p[1..])
  }

  // What is executed before `main`: the declarations.
  function Declarations(p: Program): (r: seq<Stmt>)
    ensures forall st | st in r :: st.Let?
  {
    if p == [] then [] else if p[0].Let? then [p[0]] + Declarations(p[1..]) else Declarations(p[1..])
  }

  // At the top level a jump or a return is an error.
  function Settled(r: Res): (x: Res)
    ensures x.o.Norm? || x.o.Thrown? || x.o.Fail?
  {
    if r.o.Norm? || r.o.Thrown? then r else Res(Fail, r.st)
  }

  const MAIN := "main"
  const INIT := "init"

  function Initial(): State {
    State([Scope(map[], {})], [])
  }

  // `main` and `init` start with copies of the top-level variables.
  function WithCaptures(c: Ctx, top: Scope): Ctx {
    c.(captured := if top.vars == map[] then map[]
                   else if INIT in c.funs then map[MAIN := top, INIT := top] else map[MAIN := top])
  }

  // After the declarations: `init`, if there is one, and then `main`.
  function RunMain(c: Ctx, fuel: nat, s: State): Res {
    var d := WithCaptures(c, TopLevel(s));
    var i := if INIT in c.funs then Invoke(d, fuel, INIT, [], s) else Res(Norm(Null), s);
    if i.o.Norm? then Invoke(d, fuel, MAIN, [], i.st) else i
  }

  function Execute(prims: Prims, fuel: nat, p: Program): (r: Res)
    ensures r.o.Norm? || r.o.Thrown? || r.o.Fail?
  {
    var c := Ctx(prims, Functions(p), map[]);
    if MAIN in c.funs then
      var d := Settled(EvalStmts(c, fuel, Declarations(p), Null, Initial()));
      if d.o.Norm? then RunMain(c, fuel, d.st) else d
    else
      Settled(EvalStmts(c, fuel, Code(p), Null, Initial()))
  }
}
