// What compiled programs compute: a big-step evaluator with fuel in the readings of
// the two compilers.  Fuel is spent only by loop iterations and calls, so a program
// without them needs none.  Interpreter holds the interpreter's own reading.
module Semantics {
  import opened Wrappers
  import opened Syntax
  import opened Values

  // How a compiler reads the constructs on which the two differ.
  //  Ir:  unbound names are globals that start as null, top-level bindings are also copied
  //       to globals, `continue` in do-while restarts the body, && and || are lazy and
  //       return an operand, and the name of the compiler's scratch local is reserved.
  //  Vm:  unbound names are globals that start as null, `continue` in do-while tests the
  //       condition; && and || evaluate both operands and return a boolean; an operator
  //       without value gives null, any value decides a condition, and a call takes any
  //       number of arguments and is null where there is no such function.
  // In both a block without tail yields null, a jump in a loop condition belongs to that
  // loop, and a function sees its own variables and the globals only.
  datatype Mode = Ir | Vm

  // `builtins` are function names a back end registers besides the program's own.
  datatype Ctx = Ctx(prims: Prims, funs: map<string, FnDecl>, builtins: set<string>, mode: Mode, top: bool)

  const TEMP := "__temp"

  type Scope = map<string, Value>

  datatype State = State(scopes: seq<Scope>, globals: map<string, Value>, out: seq<string>)

  datatype Res = Res(o: Outcome, st: State)

  datatype ArgsRes = ArgsRes(o: Outcome, vs: seq<Value>, st: State)

  function Initial(): State {
    State([map[]], map[], [])
  }

  function GetGlobal(globals: map<string, Value>, name: string): Value {
    if name in globals then globals[name] else Null
  }

  predicate Reserved(c: Ctx, name: string) {
    c.mode.Ir? && name == TEMP
  }

  // One back end wants as many arguments as parameters, the other takes any number.
  predicate Accepts(c: Ctx, params: seq<string>, count: nat) {
    c.mode.Ir? ==> TEMP !in params && |params| == count
  }

  function ReadVar(c: Ctx, name: string, s: State): Res {
    match Innermost(s.scopes, name)
    case Some(i) => Res(if Reserved(c, name) then Fail else Norm(s.scopes[i][name]), s)
    case None =>
      if Reserved(c, name) || (c.mode.Ir? && (name in c.funs || name in c.builtins)) then Res(Fail, s)
      else Res(Norm(GetGlobal(s.globals, name)), s)
  }

  function WriteVar(c: Ctx, name: string, v: Value, s: State): (r: Res)
    ensures |r.st.scopes| == |s.scopes|
  {
    match Innermost(s.scopes, name)
    case Some(i) =>
      if Reserved(c, name) then Res(Fail, s)
      else Res(Norm(v), s.(scopes := s.scopes[i := s.scopes[i][name := v]]))
    case None =>
      if Reserved(c, name) then Res(Fail, s)
      else Res(Norm(v), s.(globals := s.globals[name := v]))
  }

  function BindVar(c: Ctx, name: string, v: Value, s: State): (r: Res)
    ensures |r.st.scopes| == |s.scopes|
  {
    if s.scopes == [] || Reserved(c, name) then Res(Fail, s)
    else
      var top := |s.scopes| - 1;
      var s' := s.(scopes := s.scopes[top := s.scopes[top][name := v]]);
      Res(Norm(v), if c.mode.Ir? && c.top then s'.(globals := s.globals[name := v]) else s')
  }

  // An operator without value is an error in the one back end and null in the other.
  function Lift(c: Ctx, o: Option<Value>, s: State): Res {
    match o
    case Some(v) => Res(Norm(v), s)
    case None => Res(if c.mode.Vm? then Norm(Null) else Fail, s)
  }

  // What a condition decides; only one of the back ends takes other values than booleans.
  function Decides(c: Ctx, v: Value): Option<bool> {
    if c.mode.Vm? then Some(c.prims.truthy(v))
    else if v.Bool? then Some(v.b)
    else None
  }

  // The first `n` arguments, with null for those that are missing.
  function Fitted(vs: seq<Value>, n: nat): (r: seq<Value>)
    ensures |r| == n && (|vs| == n ==> r == vs)
  {
    seq(n, i requires 0 <= i < n => if i < |vs| then vs[i] else Null)
  }

  function PushScope(s: State): State {
    s.(scopes := s.scopes + [map[]])
  }

  function PopScope(s: State): (r: State)
    requires s.scopes != []
    ensures |r.scopes| == |s.scopes| - 1
  {
    s.(scopes := s.scopes[..|s.scopes|-1])
  }

  function ParamScope(params: seq<string>, vs: seq<Value>): Scope
    requires |params| == |vs|
  {
    if params == [] then map[]
    else ParamScope(params[..|params|-1], vs[..|vs|-1])[params[|params|-1] := vs[|vs|-1]]
  }

  function EvalExpr(c: Ctx, fuel: nat, e: Expr, s: State): (r: Res)
    ensures |r.st.scopes| == |s.scopes|
    decreases fuel, e, 1
  {
    match e
    case Lit(v) => Res(Norm(v), s)
    case Var(name) => ReadVar(c, name, s)
    case Bin(op, left, right) =>
      var l := EvalExpr(c, fuel, left, s);
      if !l.o.Norm? then l
      else if op.And? && !c.mode.Vm? then
        if c.prims.truthy(l.o.v) then EvalExpr(c, fuel, right, l.st) else l
      else if op.Or? && !c.mode.Vm? then
        if c.prims.truthy(l.o.v) then l else EvalExpr(c, fuel, right, l.st)
      else
        var r := EvalExpr(c, fuel, right, l.st);
        if !r.o.Norm? then r
        else if op.And? then Res(Norm(Bool(c.prims.truthy(l.o.v) && c.prims.truthy(r.o.v))), r.st)
        else if op.Or? then Res(Norm(Bool(c.prims.truthy(l.o.v) || c.prims.truthy(r.o.v))), r.st)
        else Lift(c, c.prims.bin(op, l.o.v, r.o.v), r.st)
    case Un(uop, operand) =>
      var x := EvalExpr(c, fuel, operand, s);
      if !x.o.Norm? then x
      else if uop.Not? then Res(Norm(Bool(!c.prims.truthy(x.o.v))), x.st)
      else Lift(c, c.prims.neg(x.o.v), x.st)
    case Call(fn, args) =>
      var a := EvalArgs(c, fuel, args, s);
      if !a.o.Norm? then Res(a.o, a.st)
      else if fuel == 0 then Res(Fail, a.st)
      else if fn !in c.funs && c.mode.Vm? then Res(Norm(Null), a.st)
      else if fn !in c.funs || !Accepts(c, c.funs[fn].params, |a.vs|) then Res(Fail, a.st)
      else
        var callee := State([ParamScope(c.funs[fn].params, Fitted(a.vs, |c.funs[fn].params|))], a.st.globals, a.st.out);
        var b := EvalBlock(c.(top := false), fuel - 1, c.funs[fn].body, callee);
        var back := State(a.st.scopes, b.st.globals, b.st.out);
        if b.o.Norm? || b.o.Ret? then Res(Norm(b.o.v), back)
        else if b.o.Thrown? then Res(b.o, back)
        else Res(Fail, back)
    case If(cond, thn, els) =>
      var x := EvalExpr(c, fuel, cond, s);
      if !x.o.Norm? then x
      else if Decides(c, x.o.v).None? then Res(Fail, x.st)
      else if Decides(c, x.o.v).value then EvalBlock(c, fuel, thn, x.st)
      else if els.Some? then EvalBlock(c, fuel, els.value, x.st)
      else Res(Norm(Null), x.st)
    case BlockExpr(block) => EvalBlock(c, fuel, block, s)
    case Coalesce(first, default) =>
      var x := EvalExpr(c, fuel, first, s);
      if x.o == Norm(Null) then EvalExpr(c, fuel, default, x.st) else x
    case Loop(body) =>
      if fuel == 0 then Res(Fail, s)
      else
        var b := EvalBlock(c, fuel, body, s);
        if b.o.Norm? || b.o.Cont? then EvalExpr(c, fuel - 1, e, b.st)
        else if b.o.Brk? then Res(Norm(Null), b.st)
        else b
  }

  function EvalArgs(c: Ctx, fuel: nat, args: seq<Expr>, s: State): (r: ArgsRes)
    ensures |r.st.scopes| == |s.scopes|
    ensures r.o.Norm? ==> |r.vs| == |args|
    decreases fuel, args, 0
  {
    if args == [] then ArgsRes(Norm(Null), [], s)
    else
      var x := EvalExpr(c, fuel, args[0], s);
      if !x.o.Norm? then ArgsRes(x.o, [], x.st)
      else
        var rest := EvalArgs(c, fuel, args[1..], x.st);
        rest.(vs := [x.o.v] + rest.vs)
  }

  function EvalBlock(c: Ctx, fuel: nat, b: Block, s: State): (r: Res)
    ensures |r.st.scopes| == |s.scopes|
    decreases fuel, b, 1
  {
    var r := EvalBody(c, fuel, b, PushScope(s));
    Res(r.o, PopScope(r.st))
  }

  // The statements and the tail of a block, without its scope.
  function EvalBody(c: Ctx, fuel: nat, b: Block, s: State): (r: Res)
    ensures |r.st.scopes| == |s.scopes|
    decreases fuel, b, 0
  {
    var r := EvalStmts(c, fuel, b.stmts, s);
    if !r.o.Norm? || b.tail.None? then r else EvalExpr(c, fuel, b.tail.value, r.st)
  }

  // A normal end of a statement list carries null.
  function EvalStmts(c: Ctx, fuel: nat, ss: seq<Stmt>, s: State): (r: Res)
    ensures |r.st.scopes| == |s.scopes|
    ensures r.o.Norm? ==> r.o.v == Null
    decreases fuel, ss, 0
  {
    if ss == [] then Res(Norm(Null), s)
    else
      var r := EvalStmt(c, fuel, ss[0], s);
      if r.o.Norm? then EvalStmts(c, fuel, ss[1..], r.st) else r
  }

  function EvalStmt(c: Ctx, fuel: nat, st: Stmt, s: State): (r: Res)
    ensures |r.st.scopes| == |s.scopes|
    decreases fuel, st, 1
  {
    match st
    case Let(name, value) =>
      var x := EvalExpr(c, fuel, value, s);
      if x.o.Norm? then BindVar(c, name, x.o.v, x.st) else x
    case Assign(name, value) =>
      var x := EvalExpr(c, fuel, value, s);
      if x.o.Norm? then WriteVar(c, name, x.o.v, x.st) else x
    case Output(value) =>
      var x := EvalExpr(c, fuel, value, s);
      if x.o.Norm? then Res(x.o, x.st.(out := x.st.out + [c.prims.show(x.o.v)])) else x
    case ExprStmt(e) => EvalExpr(c, fuel, e, s)
    case While(cond, body) =>
      if fuel == 0 then Res(Fail, s)
      else
        var x := EvalExpr(c, fuel, cond, s);
        if x.o.Brk? then Res(Norm(Null), x.st)
        else if x.o.Cont? then EvalStmt(c, fuel - 1, st, x.st)
        else if !x.o.Norm? then x
        else if Decides(c, x.o.v).None? then Res(Fail, x.st)
        else if !Decides(c, x.o.v).value then Res(Norm(Null), x.st)
        else
          var b := EvalBlock(c, fuel, body, x.st);
          if b.o.Norm? || b.o.Cont? then EvalStmt(c, fuel - 1, st, b.st)
          else if b.o.Brk? then Res(Norm(Null), b.st)
          else b
    case DoWhile(body, cond) =>
      if fuel == 0 then Res(Fail, s)
      else
        var b := EvalBlock(c, fuel, body, s);
        if b.o.Brk? then Res(Norm(Null), b.st)
        else if b.o.Cont? && c.mode.Ir? then EvalStmt(c, fuel - 1, st, b.st)
        else if !b.o.Norm? && !b.o.Cont? then b
        else
          var x := EvalExpr(c, fuel, cond, b.st);
          if x.o.Brk? then Res(Norm(Null), x.st)
          else if x.o.Cont? then EvalStmt(c, fuel - 1, st, x.st)
          else if !x.o.Norm? then x
          else if Decides(c, x.o.v).None? then Res(Fail, x.st)
          else if Decides(c, x.o.v).value then EvalStmt(c, fuel - 1, st, x.st)
          else Res(Norm(Null), x.st)
    case Break => Res(Brk, s)
    case Continue => Res(Cont, s)
    case Return(result) =>
      if result.None? then Res(Ret(Null), s)
      else
        var x := EvalExpr(c, fuel, result.value, s);
        if x.o.Norm? then Res(Ret(x.o.v), x.st) else x
    case Throw(value) =>
      var x := EvalExpr(c, fuel, value, s);
      if x.o.Norm? then Res(Thrown(x.o.v), x.st) else x
    case FnDef(_) => Res(Norm(Null), s)
  }
}
