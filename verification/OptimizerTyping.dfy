// The runs on which the optimizer's rewritings are right, under the evaluator's operators:
// checked 64-bit integers, strings, booleans and null.
module OptimizerTyping {
  import opened Wrappers
  import opened Syntax
  import opened Values
  import opened Interpreter

  const I64_MIN: int := -0x8000_0000_0000_0000
  const I64_MAX: int := 0x7fff_ffff_ffff_ffff

  function Checked(n: int): Option<Value> {
    if I64_MIN <= n <= I64_MAX then Some(Int(n)) else None
  }

  function Abs(n: int): nat {
    if n < 0 then -n else n
  }

  // Division and remainder truncate toward zero.
  function Quotient(a: int, b: int): int
    requires b != 0
  {
    if (a < 0) == (b < 0) then Abs(a) / Abs(b) else -(Abs(a) / Abs(b))
  }

  function Remainder(a: int, b: int): int
    requires b != 0
  {
    if a < 0 then -(Abs(a) % Abs(b)) else Abs(a) % Abs(b)
  }

  // What the optimizer computes from two literals; `None` where it leaves the operator alone.
  function Typed(op: BinOp, a: Value, b: Value): Option<Value> {
    match (op, a, b)
    case (Add, Int(x), Int(y)) => Checked(x + y)
    case (Add, Str(x), Str(y)) => Some(Str(x + y))
    case (Sub, Int(x), Int(y)) => Checked(x - y)
    case (Mul, Int(x), Int(y)) => Checked(x * y)
    case (Div, Int(x), Int(y)) => if y == 0 then None else Checked(Quotient(x, y))
    case (Mod, Int(x), Int(y)) => if y == 0 || (x == I64_MIN && y == -1) then None else Some(Int(Remainder(x, y)))
    case (Eq, Int(x), Int(y)) => Some(Bool(x == y))
    case (Eq, Str(x), Str(y)) => Some(Bool(x == y))
    case (Eq, Bool(x), Bool(y)) => Some(Bool(x == y))
    case (Eq, Null, Null) => Some(Bool(true))
    case (NotEq, Int(x), Int(y)) => Some(Bool(x != y))
    case (NotEq, Str(x), Str(y)) => Some(Bool(x != y))
    case (NotEq, Bool(x), Bool(y)) => Some(Bool(x != y))
    case (NotEq, Null, Null) => Some(Bool(false))
    case (Gt, Int(x), Int(y)) => Some(Bool(x > y))
    case (Lt, Int(x), Int(y)) => Some(Bool(x < y))
    case (GtEq, Int(x), Int(y)) => Some(Bool(x >= y))
    case (LtEq, Int(x), Int(y)) => Some(Bool(x <= y))
    case _ => None
  }

  predicate Known(op: BinOp) {
    match op
    case Add | Sub | Mul | Div | Mod | Eq | NotEq | Gt | Lt | GtEq | LtEq => true
    case _ => false
  }

  predicate Truth(v: Value) {
    match v
    case Null => false
    case Bool(b) => b
    case Int(n) => n != 0
    case Str(s) => s != ""
  }

  predicate Comparison(op: BinOp) {
    match op
    case Eq | NotEq | Gt | Lt | GtEq | LtEq => true
    case _ => false
  }

  // Results of an evaluator for operands that the optimizer does not fold: comparisons may give anything, and a
  // string times a number a string, if times 1 gives the string itself.
  predicate Unfolded(op: BinOp, a: Value, b: Value, r: Value) {
    Typed(op, a, b).None? && (Comparison(op) || (op.Mul? && a.Str? && (b == Int(1) ==> r == a)))
  }

  // An evaluator may also fail, say where a string gets too long.
  predicate Expected(op: BinOp, a: Value, b: Value, r: Option<Value>) {
    r.None? || r == Typed(op, a, b) || Unfolded(op, a, b, r.value)
  }

  // Operators unknown to the optimizer and the printed form of values may be anything.
  ghost predicate TypedPrims(p: Prims) {
    && (forall op, a, b | Known(op) :: Expected(op, a, b, p.bin(op, a, b)))
    && (forall v :: p.neg(v) == if v.Int? then Checked(-v.n) else None)
    && (forall v :: p.truthy(v) == Truth(v))
  }

  // ---- the evaluator of the repository ----

  function Repeat(s: string, n: nat): string {
    if n == 0 then "" else s + Repeat(s, n - 1)
  }

  // -1, 0 or 1, character by character.
  function Order(a: string, b: string): int {
    if a == b then 0
    else if a == "" then -1
    else if b == "" then 1
    else if a[0] != b[0] then (if a[0] < b[0] then -1 else 1)
    else Order(a[1..], b[1..])
  }

  function Ordered(op: BinOp, n: int): Option<Value> {
    match op
    case Gt => Some(Bool(n > 0))
    case Lt => Some(Bool(n < 0))
    case GtEq => Some(Bool(n >= 0))
    case LtEq => Some(Bool(n <= 0))
    case _ => None
  }

  // A value as a factor of a string; `parse` reads numbers from strings.
  function Times(parse: string -> Option<int>, v: Value): Option<int> {
    match v
    case Int(n) => Some(n)
    case Bool(b) => Some(if b then 1 else 0)
    case Str(s) => parse(s)
    case Null => None
  }

  // The operators as the standalone evaluator and the interpreter compute them, strings being limited in length.
  function Evaluate(limit: nat, parse: string -> Option<int>, op: BinOp, a: Value, b: Value): Option<Value> {
    if op.Eq? then Some(Bool(a == b))
    else if op.NotEq? then Some(Bool(a != b))
    else if Comparison(op) && a.Str? && b.Str? then Ordered(op, Order(a.s, b.s))
    else if op.Add? && a.Str? && b.Str? && |a.s| + |b.s| > limit then None
    else if op.Mul? && a.Str? && Times(parse, b).Some? then
      var n := Times(parse, b).value;
      if n < 0 then Some(Str("")) else if |a.s| * n > limit then None else Some(Str(Repeat(a.s, n)))
    else Typed(op, a, b)
  }

  // They are operators of the kind the theorems allow, whatever the rest of the record is.
  lemma EvaluatorSuits(limit: nat, parse: string -> Option<int>, p: Prims)
    requires forall op, a, b | Known(op) :: p.bin(op, a, b) == Evaluate(limit, parse, op, a, b)
    requires forall v :: p.neg(v) == if v.Int? then Checked(-v.n) else None
    requires forall v :: p.truthy(v) == Truth(v)
    ensures TypedPrims(p)
  {
    forall op, a, b | Known(op) ensures Expected(op, a, b, p.bin(op, a, b)) {
      EvaluateExpected(limit, parse, op, a, b);
    }
  }

  lemma EvaluateExpected(limit: nat, parse: string -> Option<int>, op: BinOp, a: Value, b: Value)
    requires Known(op)
    ensures Expected(op, a, b, Evaluate(limit, parse, op, a, b))
  {
    if op.Mul? && a.Str? && b == Int(1) {
      assert Repeat(a.s, 0) == "" && Repeat(a.s, 1) == a.s + "" == a.s;
    }
  }

  ghost predicate Suited(c: Ctx) {
    TypedPrims(c.prims)
  }

  // Built from literals by operators alone: what may become a literal.
  predicate Constant(e: Expr) {
    match e
    case Lit(_) => true
    case Bin(_, l, r) => Constant(l) && Constant(r)
    case Un(_, x) => Constant(x)
    case _ => false
  }

  // What a run must avoid at an operator with a constant operand: that the rewriting of a comparison with a boolean
  // or of x && true and x || false changes a value that is no boolean.
  predicate Fits(op: BinOp, l: Expr, r: Expr, x: Value, y: Value) {
    match op
    case And => Constant(r) && y == Bool(true) ==> x.Bool?
    case Or => Constant(r) && y == Bool(false) ==> x.Bool?
    case Eq => (Constant(r) && y.Bool? ==> x.Bool?) && (Constant(l) && x.Bool? ==> y.Bool?)
    case NotEq => (Constant(r) && y.Bool? ==> x.Bool?) && (Constant(l) && x.Bool? ==> y.Bool?)
    case _ => true
  }

  // Whether an operand may come directly below a !, because the other one is constant.
  predicate Under(op: BinOp, u: bool, other: Expr) {
    Constant(other) && (u || op.Eq? || op.NotEq?)
  }

  // ---- in the run of a fragment every operator meets fitting operands ----

  // `u`: directly below a !, or what may come there.  A ! that stands there is applied to a boolean, because !!x
  // becomes x.
  ghost predicate TypedExpr(c: Ctx, fuel: nat, u: bool, e: Expr, s: State)
    decreases fuel, e, 1
  {
    match e
    case Lit(_) => true
    case Var(_) => true
    case Bin(op, left, right) =>
      TypedExpr(c, fuel, Under(op, u, right), left, s) &&
      var x := EvalExpr(c, fuel, left, s);
      (x.o.Norm? ==>
         (NeedsRight(c.prims, op, x.o.v) ==>
            TypedExpr(c, fuel, Under(op, u, left), right, x.st) &&
            var y := EvalExpr(c, fuel, right, x.st);
            (y.o.Norm? ==> Fits(op, left, right, x.o.v, y.o.v))))
    case Un(uop, operand) =>
      TypedExpr(c, fuel, u || uop.Not?, operand, s) &&
      (u && uop.Not? && EvalExpr(c, fuel, operand, s).o.Norm? ==> EvalExpr(c, fuel, operand, s).o.v.Bool?)
    case Call(fn, args) =>
      TypedArgs(c, fuel, args, s) &&
      var a := EvalArgs(c, fuel, args, s);
      (a.o.Norm? && fuel > 0 ==> TypedInvoke(c, fuel - 1, fn, a.vs, a.st))
    case If(cond, thn, els) =>
      TypedExpr(c, fuel, false, cond, s) &&
      var x := EvalExpr(c, fuel, cond, s);
      (x.o == Norm(Bool(true)) ==> TypedBlock(c, fuel, thn, x.st))
      && (x.o == Norm(Bool(false)) && els.Some? ==> TypedBlock(c, fuel, els.value, x.st))
    case BlockExpr(block) => TypedBlock(c, fuel, block, s)
    case Coalesce(first, default) =>
      TypedExpr(c, fuel, false, first, s) &&
      var x := EvalExpr(c, fuel, first, s);
      (x.o == Norm(Null) ==> TypedExpr(c, fuel, false, default, x.st))
    case Loop(body) =>
      fuel > 0 ==>
        TypedBlock(c, fuel, body, s) &&
        var b := EvalBlock(c, fuel, body, s);
        (b.o.Norm? || b.o.Cont? ==> TypedExpr(c, fuel - 1, u, e, b.st))
  }

  ghost predicate TypedArgs(c: Ctx, fuel: nat, args: seq<Expr>, s: State)
    decreases fuel, args, 0
  {
    args != [] ==>
      TypedExpr(c, fuel, false, args[0], s) &&
      var x := EvalExpr(c, fuel, args[0], s);
      (x.o.Norm? ==> TypedArgs(c, fuel, args[1..], x.st))
  }

  ghost predicate TypedInvoke(c: Ctx, fuel: nat, fn: string, vs: seq<Value>, s: State)
    decreases fuel
  {
    fn in c.funs && |c.funs[fn].params| == |vs| ==> TypedBody(c, fuel, c.funs[fn].body, Entry(c, c.funs[fn], vs, s))
  }

  ghost predicate TypedBlock(c: Ctx, fuel: nat, b: Block, s: State)
    decreases fuel, b, 1
  {
    TypedBody(c, fuel, b, PushScope(s))
  }

  ghost predicate TypedBody(c: Ctx, fuel: nat, b: Block, s: State)
    decreases fuel, b, 0
  {
    TypedStmts(c, fuel, b.stmts, s) &&
    var r := EvalStmts(c, fuel, b.stmts, Null, s);
    (r.o.Norm? && b.tail.Some? ==> TypedExpr(c, fuel, false, b.tail.value, r.st))
  }

  ghost predicate TypedStmts(c: Ctx, fuel: nat, ss: seq<Stmt>, s: State)
    decreases fuel, ss, 0
  {
    ss != [] ==>
      TypedStmt(c, fuel, ss[0], s) &&
      var r := EvalStmt(c, fuel, ss[0], s);
      (r.o.Norm? ==> TypedStmts(c, fuel, ss[1..], r.st))
  }

  ghost predicate TypedStmt(c: Ctx, fuel: nat, st: Stmt, s: State)
    decreases fuel, st, 1
  {
    match st
    case Let(_, e) => TypedExpr(c, fuel, false, e, s)
    case Assign(_, e) => TypedExpr(c, fuel, false, e, s)
    case Output(e) => TypedExpr(c, fuel, false, e, s)
    case ExprStmt(e) => TypedExpr(c, fuel, false, e, s)
    case While(cond, body) =>
      fuel > 0 ==>
        TypedExpr(c, fuel, false, cond, s) &&
        var x := EvalExpr(c, fuel, cond, s);
        (x.o == Norm(Bool(true)) ==>
           TypedBlock(c, fuel, body, x.st) &&
           var b := EvalBlock(c, fuel, body, x.st);
           (b.o.Norm? || b.o.Cont? ==> TypedStmt(c, fuel - 1, st, b.st)))
    case DoWhile(body, cond) =>
      fuel > 0 ==>
        TypedBlock(c, fuel, body, s) &&
        var b := EvalBlock(c, fuel, body, s);
        (b.o.Norm? || b.o.Cont? ==>
           TypedExpr(c, fuel, false, cond, b.st) &&
           var x := EvalExpr(c, fuel, cond, b.st);
           (x.o == Norm(Bool(true)) ==> TypedStmt(c, fuel - 1, st, x.st)))
    case Return(e) => e.Some? ==> TypedExpr(c, fuel, false, e.value, s)
    case Throw(e) => TypedExpr(c, fuel, false, e, s)
    case Break => true
    case Continue => true
    case FnDef(_) => true
  }
}
