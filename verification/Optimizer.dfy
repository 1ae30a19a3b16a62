// The AST optimizer (src/optimizer.rs): constant folding, identities, constant
// branches, and the removal of code after a jump.
module Optimizer {
  import opened Wrappers
  import opened Syntax
  import opened OptimizerTyping

  predicate IsZero(e: Expr) {
    e == Lit(Int(0))
  }

  predicate IsOne(e: Expr) {
    e == Lit(Int(1))
  }

  predicate IsBool(e: Expr, b: bool) {
    e == Lit(Bool(b))
  }

  predicate BoolLit(e: Expr) {
    e.Lit? && e.value.Bool?
  }

  // Two literal operands become their result, unless the operator fails on them.
  function FoldBinary(op: BinOp, l: Expr, r: Expr): Option<Expr> {
    if !l.Lit? || !r.Lit? then None
    else if op.And? && l.value.Bool? && r.value.Bool? then Some(Lit(Bool(l.value.b && r.value.b)))
    else if op.Or? && l.value.Bool? && r.value.Bool? then Some(Lit(Bool(l.value.b || r.value.b)))
    else
      match Typed(op, l.value, r.value)
      case Some(v) => Some(Lit(v))
      case None => None
  }

  function FoldUnary(op: UnOp, x: Expr): Option<Expr> {
    if !x.Lit? then None
    else if op.Not? then Some(Lit(Bool(!Truth(x.value))))
    else if x.value.Int? then
      match Checked(-x.value.n)
      case Some(v) => Some(Lit(v))
      case None => None
    else None
  }

  // Which operand an identity keeps: x + 0, 0 + x, x - 0, x * 1, 1 * x, x / 1, true && x, x && true, false || x, x || false.
  function Kept(op: BinOp, l: Expr, r: Expr): Option<Expr> {
    match op
    case Add => if IsZero(r) then Some(l) else if IsZero(l) then Some(r) else None
    case Sub => if IsZero(r) then Some(l) else None
    case Mul => if IsOne(r) then Some(l) else if IsOne(l) then Some(r) else None
    case Div => if IsOne(r) then Some(l) else None
    case And =>
      if IsBool(l, true) then Some(r) else if IsBool(l, false) then None else if IsBool(r, true) then Some(l) else None
    case Or =>
      if IsBool(l, false) then Some(r) else if IsBool(l, true) then None else if IsBool(r, false) then Some(l) else None
    case _ => None
  }

  // Comparing x with a boolean literal is x or its negation.
  function Compared(op: BinOp, l: Expr, r: Expr): Option<Expr> {
    if !op.Eq? && !op.NotEq? then None
    else if BoolLit(r) && !BoolLit(l) then Some(if r.value.b == op.Eq? then l else Un(Not, l))
    else if BoolLit(l) && !BoolLit(r) then Some(if l.value.b == op.Eq? then r else Un(Not, r))
    else None
  }

  // What is done to a node once its operands are folded.
  function Simplify(e: Expr): Expr {
    match e
    case Un(op, Un(op', x)) => if op == op' then x else FoldUnary(op, e.operand).GetOr(e)
    case Un(op, x) => FoldUnary(op, x).GetOr(e)
    case Bin(op, l, r) =>
      if Kept(op, l, r).Some? then Kept(op, l, r).value
      else if Compared(op, l, r).Some? then Compared(op, l, r).value
      else FoldBinary(op, l, r).GetOr(e)
    case If(cond, thn, els) =>
      if IsBool(cond, true) then BlockExpr(thn)
      else if IsBool(cond, false) && els.Some? then BlockExpr(els.value)
      else e
    case _ => e
  }

  predicate Jumps(st: Stmt) {
    st.Return? || st.Break? || st.Continue? || st.Throw?
  }

  // Everything up to and with the first statement that satisfies `stop`.
  function UpTo(ss: seq<Stmt>, stop: Stmt -> bool): (r: seq<Stmt>)
    ensures |r| <= |ss| && r == ss[..|r|]
  {
    if ss == [] then []
    else if stop(ss[0]) then [ss[0]]
    else
      var r := UpTo(ss[1..], stop);
      assert ss[..|r| + 1] == [ss[0]] + ss[1..][..|r|];
      [ss[0]] + r
  }

  function Fold(e: Expr): Expr
    decreases e, 1
  {
    match e
    case Lit(_) => e
    case Var(_) => e
    case Bin(op, l, r) => Simplify(Bin(op, Fold(l), Fold(r)))
    case Un(op, x) => Simplify(Un(op, Fold(x)))
    case Call(fn, args) => Call(fn, FoldArgs(args))
    case If(c, t, f) => Simplify(If(Fold(c), FoldBlock(t), if f.Some? then Some(FoldBlock(f.value)) else None))
    case BlockExpr(b) => BlockExpr(FoldBlock(b))
    case Coalesce(l, r) => Coalesce(Fold(l), Fold(r))
    case Loop(b) => Loop(FoldBlock(b))
  }

  function FoldArgs(args: seq<Expr>): (r: seq<Expr>)
    ensures |r| == |args|
    decreases args, 0
  {
    if args == [] then [] else [Fold(args[0])] + FoldArgs(args[1..])
  }

  // Code after a jump goes, and with it the tail.
  function FoldBlock(b: Block): Block
    decreases b, 1
  {
    Cut(Block(FoldStmts(b.stmts), if b.tail.Some? then Some(Fold(b.tail.value)) else None))
  }

  function Cut(b: Block): Block {
    if exists i :: 0 <= i < |b.stmts| && Jumps(b.stmts[i]) then Block(UpTo(b.stmts, Jumps), None) else b
  }

  function FoldStmts(ss: seq<Stmt>): (r: seq<Stmt>)
    ensures |r| == |ss|
    decreases ss, 0
  {
    if ss == [] then [] else [FoldStmt(ss[0])] + FoldStmts(ss[1..])
  }

  function FoldStmt(st: Stmt): Stmt
    decreases st, 1
  {
    match st
    case Let(x, e) => Let(x, Fold(e))
    case Assign(x, e) => Assign(x, Fold(e))
    case Output(e) => Output(Fold(e))
    case ExprStmt(e) => ExprStmt(Fold(e))
    case While(c, b) => While(Fold(c), FoldBlock(b))
    case DoWhile(b, c) => DoWhile(FoldBlock(b), Fold(c))
    case Return(e) => Return(if e.Some? then Some(Fold(e.value)) else None)
    case Throw(e) => Throw(Fold(e))
    case FnDef(d) => FnDef(d.(body := FoldBlock(d.body)))
    case Break => st
    case Continue => st
  }

  // ---- dead code elimination: looks into loops and functions only, keeps tails, does not stop at `continue` ----

  predicate Ends(st: Stmt) {
    st.Return? || st.Break? || st.Throw?
  }

  function TrimBlock(b: Block): Block
    decreases b, 1
  {
    b.(stmts := UpTo(TrimStmts(b.stmts), Ends))
  }

  function TrimStmts(ss: seq<Stmt>): (r: seq<Stmt>)
    ensures |r| == |ss|
    decreases ss, 0
  {
    if ss == [] then [] else [TrimStmt(ss[0])] + TrimStmts(ss[1..])
  }

  function TrimStmt(st: Stmt): Stmt
    decreases st, 1
  {
    match st
    case While(c, b) => While(c, TrimBlock(b))
    case DoWhile(b, c) => DoWhile(TrimBlock(b), c)
    case FnDef(d) => FnDef(d.(body := TrimBlock(d.body)))
    case _ => st
  }

  // ---- the pass called loop unrolling, which folds function bodies again, innermost blocks first ----

  function RefoldBlock(b: Block): Block
    decreases b, 1
  {
    b.(stmts := RefoldStmts(b.stmts))
  }

  function RefoldStmts(ss: seq<Stmt>): (r: seq<Stmt>)
    ensures |r| == |ss|
    decreases ss, 0
  {
    if ss == [] then [] else [FoldStmt(RefoldInner(ss[0]))] + RefoldStmts(ss[1..])
  }

  function RefoldInner(st: Stmt): Stmt
    decreases st, 1
  {
    match st
    case While(c, b) => While(c, RefoldBlock(b))
    case DoWhile(b, c) => DoWhile(RefoldBlock(b), c)
    case FnDef(d) => FnDef(d.(body := RefoldBlock(d.body)))
    case _ => st
  }

  // Only functions at the top level are refolded.
  function RefoldTop(p: Program): Program
  {
    if p == [] then []
    else [match p[0]
          case FnDef(d) => FnDef(d.(body := RefoldBlock(d.body)))
          case _ => p[0]] + RefoldTop(p[1..])
  }

  // Tail-call marks and the collection of inlinable functions do not change the tree.
  function Optimize(p: Program): Program {
    RefoldTop(TrimStmts(FoldStmts(p)))
  }
}
