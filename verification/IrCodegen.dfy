// What the AST -> IR compiler (src/compiler/compile.rs) emits, as a function of
// the tree.  Branch labels are relative: `k` counts the constructs opened since
// the innermost enclosing loop, so `continue` is `br k` and `break` is `br k+1`.
// IrCompiler proves that the depth-counting compiler emits exactly this.
module IrCodegen {
  import opened Wrappers
  import opened Syntax
  import opened Values
  import opened Semantics
  import opened IrMachine
  import opened Pools

  type Slots = map<string, nat>

  // The compiler's name tables at one point of the function being compiled.
  datatype Env = Env(scopes: seq<Slots>, locals: seq<string>, strings: seq<string>, globals: seq<string>)

  // What stays fixed while one function is compiled.
  datatype Unit = Unit(fns: map<string, nat>, top: bool)

  // Emitted code and the tables after it; `None` is a compile error.
  datatype Emitted = Emitted(code: seq<Instr>, env: Env)

  // Scopes without the compiler's own scratch local.
  ghost function Visible(scopes: seq<Slots>): seq<Slots> {
    seq(|scopes|, i requires 0 <= i < |scopes| => scopes[i] - {TEMP})
  }

  ghost predicate Grows(a: Env, b: Env) {
    |a.scopes| == |b.scopes| && a.locals <= b.locals && a.strings <= b.strings && a.globals <= b.globals
  }

  // Every slot belongs to one binding: it records its name, and shadowing bindings differ.
  ghost predicate Good(env: Env) {
    && (forall i, x | 0 <= i < |env.scopes| && x in env.scopes[i] ::
          env.scopes[i][x] < |env.locals| && env.locals[env.scopes[i][x]] == x)
    && (forall i, j, x | 0 <= i < j < |env.scopes| && x in env.scopes[i] && x in env.scopes[j] ::
          env.scopes[i][x] != env.scopes[j][x])
  }

  function Define(env: Env, name: string): (r: Env)
    requires env.scopes != []
    ensures Grows(env, r)
    ensures Good(env) ==> Good(r)
    ensures r.scopes[..|env.scopes|-1] == env.scopes[..|env.scopes|-1]
    ensures r.locals == env.locals + [name]
    ensures r.scopes[|env.scopes|-1] == env.scopes[|env.scopes|-1][name := |env.locals|]
  {
    var top := |env.scopes| - 1;
    var inner: Slots := env.scopes[top][name := |env.locals|];
    env.(scopes := env.scopes[top := inner], locals := env.locals + [name])
  }

  // The scratch local is defined in the innermost scope on first use.
  function WithTemp(env: Env): (r: Env)
    requires env.scopes != []
    ensures Grows(env, r)
    ensures Good(env) ==> Good(r)
    ensures Visible(r.scopes) == Visible(env.scopes)
    ensures Innermost(r.scopes, TEMP).Some?
  {
    if Innermost(env.scopes, TEMP).Some? then env
    else
      var r := Define(env, TEMP);
      assert forall i :: 0 <= i < |env.scopes| ==> r.scopes[i] - {TEMP} == env.scopes[i] - {TEMP};
      r
  }

  function TempSlot(env: Env): nat
    requires Innermost(env.scopes, TEMP).Some?
  {
    env.scopes[Innermost(env.scopes, TEMP).value][TEMP]
  }

  function Enter(env: Env): (r: Env)
    ensures Good(env) ==> Good(r)
  {
    env.(scopes := env.scopes + [map[]])
  }

  function Exit(env: Env): (r: Env)
    requires env.scopes != []
    ensures Good(env) ==> Good(r)
  {
    env.(scopes := env.scopes[..|env.scopes|-1])
  }

  function Deeper(k: Option<nat>, n: nat): Option<nat> {
    if k.None? then None else Some(k.value + n)
  }

  // Prefixing code keeps the tables.
  function After(code: seq<Instr>, rest: Emitted): Emitted {
    Emitted(code + rest.code, rest.env)
  }

  // Block, Loop, body, End, End: the block is the target of `break`, the loop of `continue`.
  function InLoop(body: seq<Instr>): seq<Instr> {
    [OpenBlock, OpenLoop] + body + [End, End]
  }

  function IfElse(thn: seq<Instr>, els: seq<Instr>): seq<Instr> {
    [OpenIf] + thn + [Else] + els + [End]
  }

  // && and || once the left value is in slot `t`: skip the right operand or store it over the left.
  function ShortCircuit(op: BinOp, t: nat, right: seq<Instr>): seq<Instr> {
    [OpenBlock, OpenBlock] + Guarded(op, t, right) + [End, End]
  }

  function Guarded(op: BinOp, t: nat, right: seq<Instr>): seq<Instr> {
    [LocalGet(t)] + SkipTest(op) + right + [LocalSet(t)]
  }

  // Branches to the end of the inner block when the left value decides the result.
  function SkipTest(op: BinOp): seq<Instr> {
    if op.And? then [BoolNot, BrIf(0)] else [BrIf(0)]
  }

  // Stores a value in slot `t` and leaves whether it is null.
  function NullTest(t: nat): seq<Instr> {
    [LocalSet(t), LocalGet(t), GetTag, PushI64(0), I64Eq]
  }

  function GenRead(u: Unit, name: string, env: Env): (r: Emitted)
    ensures Grows(env, r.env) && r.env.scopes == env.scopes && r.env.locals == env.locals
  {
    match Innermost(env.scopes, name)
    case Some(i) => Emitted([LocalGet(env.scopes[i][name])], env)
    case None =>
      if IndexOf(env.globals, name).None? && name in u.fns then Emitted([PushI64(u.fns[name])], env)
      else Emitted([GlobalGet(InternIndex(env.globals, name))], env.(globals := Interned(env.globals, name)))
  }

  function GenWrite(u: Unit, name: string, env: Env): (r: Emitted)
    ensures Grows(env, r.env) && r.env.scopes == env.scopes && r.env.locals == env.locals
  {
    match Innermost(env.scopes, name)
    case Some(i) => Emitted([LocalSet(env.scopes[i][name])], env)
    case None =>
      Emitted([GlobalSet(InternIndex(env.globals, name))], env.(globals := Interned(env.globals, name)))
  }

  function GenBind(u: Unit, name: string, env: Env): (r: Emitted)
    requires env.scopes != []
    ensures Grows(env, r.env)
    ensures Good(env) ==> Good(r.env)
    ensures r.env.scopes[..|env.scopes|-1] == env.scopes[..|env.scopes|-1]
  {
    var slot := |env.locals|;
    var env' := Define(env, name);
    if u.top then
      Emitted([LocalSet(slot), LocalGet(slot), GlobalSet(InternIndex(env.globals, name))],
              env'.(globals := Interned(env.globals, name)))
    else Emitted([LocalSet(slot)], env')
  }

  function GenOp(op: BinOp, env: Env): (r: Emitted)
    ensures Grows(env, r.env) && r.env.scopes == env.scopes && r.env.locals == env.locals
  {
    Emitted([RuntimeCall(InternIndex(env.strings, OpName(op)), 2)], env.(strings := Interned(env.strings, OpName(op))))
  }

  // A declared function, else a variable holding a function index, else a runtime helper.
  function GenCallee(u: Unit, fn: string, argc: nat, env: Env): (r: Emitted)
    ensures Grows(env, r.env) && r.env.scopes == env.scopes && r.env.locals == env.locals
  {
    if fn in u.fns then Emitted([Invoke(u.fns[fn])], env)
    else
      var local := Innermost(env.scopes, fn);
      if local.Some? then Emitted([LocalGet(env.scopes[local.value][fn]), InvokeIndirect(argc)], env)
      else
        var global := IndexOf(env.globals, fn);
        if global.Some? then Emitted([GlobalGet(global.value), InvokeIndirect(argc)], env)
        else Emitted([RuntimeCall(InternIndex(env.strings, fn), argc)], env.(strings := Interned(env.strings, fn)))
  }

  function GenLit(v: Value, env: Env): (r: Emitted)
    ensures Grows(env, r.env) && r.env.scopes == env.scopes && r.env.locals == env.locals
  {
    match v
    case Null => Emitted([PushNull], env)
    case Bool(b) => Emitted([PushBool(b)], env)
    case Int(n) => Emitted([PushI64(n)], env)
    case Str(s) => Emitted([PushString(InternIndex(env.strings, s))], env.(strings := Interned(env.strings, s)))
  }

  ghost predicate ExprOk(env: Env, r: Option<Emitted>) {
    r.Some? ==>
      && Grows(env, r.value.env)
      && Visible(r.value.env.scopes) == Visible(env.scopes)
      && (Good(env) ==> Good(r.value.env))
  }

  ghost predicate StmtOk(env: Env, r: Option<Emitted>) {
    r.Some? ==>
      && Grows(env, r.value.env)
      && (env.scopes != [] ==>
            Visible(r.value.env.scopes)[..|env.scopes|-1] == Visible(env.scopes)[..|env.scopes|-1])
      && (Good(env) ==> Good(r.value.env))
  }

  function GenExpr(u: Unit, e: Expr, k: Option<nat>, env: Env): (r: Option<Emitted>)
    requires env.scopes != []
    ensures ExprOk(env, r)
    decreases e, 1
  {
    match e
    case Lit(v) => Some(GenLit(v, env))
    case Var(name) => Some(GenRead(u, name, env))
    case Bin(op, left, right) =>
      var l :- GenExpr(u, left, k, env);
      if op.And? || op.Or? then
        var mid := WithTemp(l.env);
        var t := TempSlot(mid);
        var r :- GenExpr(u, right, Deeper(k, 2), mid);
        Some(Emitted(l.code + [LocalSet(t)] + ShortCircuit(op, t, r.code) + [LocalGet(t)], r.env))
      else
        var r :- GenExpr(u, right, k, l.env);
        var o := GenOp(op, r.env);
        Some(Emitted(l.code + r.code + o.code, o.env))
    case Un(uop, operand) =>
      var x :- GenExpr(u, operand, k, env);
      Some(Emitted(x.code + [if uop.Not? then BoolNot else I64Neg], x.env))
    case Call(fn, args) =>
      var a :- GenArgs(u, args, k, env);
      Some(After(a.code, GenCallee(u, fn, |args|, a.env)))
    case If(cond, thn, els) =>
      var x :- GenExpr(u, cond, k, env);
      var t :- GenBlock(u, thn, Deeper(k, 1), x.env);
      if els.Some? then
        var f :- GenBlock(u, els.value, Deeper(k, 1), t.env);
        Some(Emitted(x.code + IfElse(t.code, f.code), f.env))
      else
        Some(Emitted(x.code + IfElse(t.code, [PushNull]), t.env))
    case BlockExpr(block) => GenBlock(u, block, k, env)
    case Coalesce(first, default) =>
      var l :- GenExpr(u, first, k, env);
      var mid := WithTemp(l.env);
      var t := TempSlot(mid);
      var r :- GenExpr(u, default, Deeper(k, 1), mid);
      Some(Emitted(l.code + NullTest(t) + IfElse(r.code, [LocalGet(t)]), r.env))
    case Loop(body) =>
      var b :- GenBlock(u, body, Some(0), env);
      Some(Emitted(InLoop(b.code + [Drop, Br(0)]) + [PushNull], b.env))
  }

  function GenArgs(u: Unit, args: seq<Expr>, k: Option<nat>, env: Env): (r: Option<Emitted>)
    requires env.scopes != []
    ensures ExprOk(env, r)
    decreases args, 0
  {
    if args == [] then Some(Emitted([], env))
    else
      var x :- GenExpr(u, args[0], k, env);
      var rest :- GenArgs(u, args[1..], k, x.env);
      Some(After(x.code, rest))
  }

  // The statements and the tail of a block, without its scope.
  function GenInner(u: Unit, b: Block, k: Option<nat>, env: Env): (r: Option<Emitted>)
    requires env.scopes != []
    ensures StmtOk(env, r)
    decreases b, 0
  {
    var ss :- GenStmts(u, b.stmts, k, env);
    if b.tail.None? then Some(ss)
    else
      var t :- GenExpr(u, b.tail.value, k, ss.env);
      Some(After(ss.code, t))
  }

  // A block in its own scope that always leaves one value.
  function GenBlock(u: Unit, b: Block, k: Option<nat>, env: Env): (r: Option<Emitted>)
    ensures ExprOk(env, r)
    decreases b, 1
  {
    var i :- GenInner(u, b, k, Enter(env));
    ExitVisible(env, i.env);
    Some(Emitted(i.code + (if b.tail.None? then [PushNull] else []), Exit(i.env)))
  }

  // A loop body in its own scope; a tail value is dropped.
  function GenBody(u: Unit, b: Block, k: Option<nat>, env: Env): (r: Option<Emitted>)
    ensures ExprOk(env, r)
    decreases b, 1
  {
    var i :- GenInner(u, b, k, Enter(env));
    ExitVisible(env, i.env);
    Some(Emitted(i.code + (if b.tail.Some? then [Drop] else []), Exit(i.env)))
  }

  function GenStmts(u: Unit, ss: seq<Stmt>, k: Option<nat>, env: Env): (r: Option<Emitted>)
    requires env.scopes != []
    ensures StmtOk(env, r)
    decreases ss, 0
  {
    if ss == [] then Some(Emitted([], env))
    else
      var x :- GenStmt(u, ss[0], k, env);
      var rest :- GenStmts(u, ss[1..], k, x.env);
      Some(After(x.code, rest))
  }

  function GenStmt(u: Unit, st: Stmt, k: Option<nat>, env: Env): (r: Option<Emitted>)
    requires env.scopes != []
    ensures StmtOk(env, r)
    decreases st, 1
  {
    match st
    case Let(name, value) =>
      var x :- GenExpr(u, value, k, env);
      var b := GenBind(u, name, x.env);
      VisiblePrefix(x.env.scopes, b.env.scopes);
      Some(After(x.code, b))
    case Assign(name, value) =>
      var x :- GenExpr(u, value, k, env);
      Some(After(x.code, GenWrite(u, name, x.env)))
    case Output(value) =>
      var x :- GenExpr(u, value, k, env);
      Some(Emitted(x.code + [Print], x.env))
    case ExprStmt(e) =>
      var x :- GenExpr(u, e, k, env);
      Some(Emitted(x.code + [Drop], x.env))
    case While(cond, body) =>
      var x :- GenExpr(u, cond, Some(0), env);
      var b :- GenBody(u, body, Some(0), x.env);
      Some(Emitted(InLoop(x.code + [BoolNot, BrIf(1)] + b.code + [Br(0)]), b.env))
    case DoWhile(body, cond) =>
      var b :- GenBody(u, body, Some(0), env);
      var x :- GenExpr(u, cond, Some(0), b.env);
      Some(Emitted(InLoop(b.code + x.code + [BoolNot, BrIf(1), Br(0)]), x.env))
    case Break => if k.None? then None else Some(Emitted([Br(k.value + 1)], env))
    case Continue => if k.None? then None else Some(Emitted([Br(k.value)], env))
    case Return(result) =>
      if result.None? then Some(Emitted([PushNull, Leave], env))
      else
        var x :- GenExpr(u, result.value, k, env);
        Some(Emitted(x.code + [Leave], x.env))
    case Throw(value) =>
      var x :- GenExpr(u, value, k, env);
      Some(Emitted(x.code + [Drop, Unreachable], x.env))
    case FnDef(_) => Some(Emitted([], env))
  }

  lemma ExitVisible(env: Env, inner: Env)
    requires |inner.scopes| == |env.scopes| + 1
    requires Visible(inner.scopes)[..|env.scopes|] == Visible(Enter(env).scopes)[..|env.scopes|]
    ensures Visible(Exit(inner).scopes) == Visible(env.scopes)
  {
    forall i | 0 <= i < |env.scopes|
      ensures Visible(Exit(inner).scopes)[i] == Visible(env.scopes)[i]
    {
      assert Visible(Exit(inner).scopes)[i] == Visible(inner.scopes)[..|env.scopes|][i];
      assert Visible(env.scopes)[i] == Visible(Enter(env).scopes)[..|env.scopes|][i];
    }
  }

  lemma VisiblePrefix(a: seq<Slots>, b: seq<Slots>)
    requires |a| == |b| > 0 && a[..|a|-1] == b[..|a|-1]
    ensures Visible(a)[..|a|-1] == Visible(b)[..|a|-1]
  {
    forall i | 0 <= i < |a| - 1
      ensures Visible(a)[i] == Visible(b)[i]
    {
      assert a[..|a|-1][i] == b[..|a|-1][i];
    }
  }

  function ParamSlots(params: seq<string>): Slots {
    if params == [] then map[]
    else ParamSlots(params[..|params|-1])[params[|params|-1] := |params| - 1]
  }

  function ParamEnv(params: seq<string>, strings: seq<string>, globals: seq<string>): Env {
    Env([ParamSlots(params)], params, strings, globals)
  }

  function GenFunction(u: Unit, decl: FnDecl, strings: seq<string>, globals: seq<string>): Option<Emitted> {
    var b :- GenBlock(u, decl.body, None, ParamEnv(decl.params, strings, globals));
    Some(Emitted(b.code + [Leave], b.env))
  }

  function GenTop(u: Unit, p: Program, env: Env): Option<Emitted>
    requires env.scopes != []
  {
    var b :- GenStmts(u, p, None, env);
    Some(Emitted(b.code + [PushNull, Leave], b.env))
  }

  function GenMain(u: Unit, p: Program, strings: seq<string>): Option<Emitted> {
    GenTop(u, p, Env([map[]], [], strings, []))
  }
}
