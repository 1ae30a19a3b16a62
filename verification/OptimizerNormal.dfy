// What the optimizer leaves: a normal form of trees.  Everything that can be computed is computed, every identity
// is used, no condition is constant, and no statement stands behind a jump.
module OptimizerNormal {
  import opened Wrappers
  import opened Syntax
  import opened OptimizerTyping
  import opened Optimizer

  // ---- the value of an operator on two literals ----

  predicate Small(n: int) {
    -9223372036854775808 <= n <= 9223372036854775807
  }

  predicate Computable(op: BinOp, a: Value, b: Value) {
    if a.Int? && b.Int? then
      Small(a.n) && Small(b.n) &&
      match op
      case Add => Small(a.n + b.n)
      case Sub => Small(a.n - b.n)
      case Mul => Small(a.n * b.n)
      case Div | Mod => b.n != 0 && !(a.n == -9223372036854775808 && b.n == -1)
      case Eq | NotEq | Gt | Lt | GtEq | LtEq => true
      case _ => false
    else if a.Str? && b.Str? then op.Add? || op.Eq? || op.NotEq?
    else if a.Bool? && b.Bool? then op.And? || op.Or? || op.Eq? || op.NotEq?
    else a.Null? && b.Null? && (op.Eq? || op.NotEq?)
  }

  // Division cuts toward zero: the remainder is smaller than the divisor and has the sign of the dividend.
  predicate Divides(a: int, b: int, q: int, r: int) {
    a == b * q + r && (if b > 0 then -b < r < b else b < r < -b) && (r > 0 ==> a > 0) && (r < 0 ==> a < 0)
  }

  ghost predicate ComputesInt(op: BinOp, a: int, b: int, v: Value) {
    match op
    case Add => v == Int(a + b)
    case Sub => v == Int(a - b)
    case Mul => v == Int(a * b)
    case Div => v.Int? && exists r :: Divides(a, b, v.n, r)
    case Mod => v.Int? && exists q :: Divides(a, b, q, v.n)
    case Eq => v == Bool(a == b)
    case NotEq => v == Bool(a != b)
    case Gt => v == Bool(a > b)
    case Lt => v == Bool(a < b)
    case GtEq => v == Bool(a >= b)
    case LtEq => v == Bool(a <= b)
    case _ => false
  }

  ghost predicate Computes(op: BinOp, a: Value, b: Value, v: Value) {
    if a.Int? && b.Int? then ComputesInt(op, a.n, b.n, v)
    else if op.Add? then a.Str? && b.Str? && v == Str(a.s + b.s)
    else if op.And? then a.Bool? && b.Bool? && v == Bool(a.b && b.b)
    else if op.Or? then a.Bool? && b.Bool? && v == Bool(a.b || b.b)
    else (op.Eq? && v == Bool(a == b)) || (op.NotEq? && v == Bool(a != b))
  }

  lemma NatDivides(m: nat, n: nat)
    requires n > 0
    ensures m == n * (m / n) + m % n && m / n <= m
  {
    var q, r := m / n, m % n;
    assert m == n * q + r;
    if q > 0 { Grows(n, q); }
  }

  lemma Grows(n: nat, q: nat)
    requires n > 0
    ensures n * q >= q
  {
  }

  function Times(b: int, q: int): int {
    b * q
  }

  lemma Signs(b: int, q: int)
    ensures Times(b, -q) == -Times(b, q) && Times(Abs(b), q) == if b < 0 then -Times(b, q) else Times(b, q)
  {
  }

  lemma Parts(a: int, b: int)
    requires b != 0
    ensures var q, r := Abs(a) / Abs(b), Abs(a) % Abs(b);
      && Quotient(a, b) == (if (a < 0) == (b < 0) then q else -q) && Remainder(a, b) == (if a < 0 then -r else r)
      && Abs(a) == Times(Abs(b), q) + r && Times(Abs(b), q) >= 0 && r < Abs(b) && q <= Abs(a) && (Abs(b) > 1 ==> 2 * q <= Abs(a))
  {
    Signed(a, b);
    hide Quotient, Remainder;
    NatParts(Abs(a), Abs(b));
  }

  lemma Signed(a: int, b: int)
    requires b != 0
    ensures Quotient(a, b) == if (a < 0) == (b < 0) then Abs(a) / Abs(b) else -(Abs(a) / Abs(b))
    ensures Remainder(a, b) == if a < 0 then -(Abs(a) % Abs(b)) else Abs(a) % Abs(b)
  {
  }

  lemma NatParts(m: nat, n: nat)
    requires n > 0
    ensures m == Times(n, m / n) + m % n && Times(n, m / n) >= 0 && m % n < n && m / n <= m && (n > 1 ==> 2 * (m / n) <= m)
  {
    NatDivides(m, n);
    if n > 1 { Halved(m, n); }
  }

  lemma Truncates(a: int, b: int)
    requires b != 0
    ensures Divides(a, b, Quotient(a, b), Remainder(a, b))
  {
    hide Quotient, Remainder, Divides, Times;
    Parts(a, b);
    SignedDivides(a, b, Abs(a) / Abs(b), Abs(a) % Abs(b));
  }

  lemma SignedDivides(a: int, b: int, q: int, r: int)
    requires b != 0 && Abs(a) == Times(Abs(b), q) + r && Times(Abs(b), q) >= 0 && 0 <= r < Abs(b)
    ensures Divides(a, b, if (a < 0) == (b < 0) then q else -q, if a < 0 then -r else r)
  {
    hide Divides, Times;
    Signs(b, q);
    DividesBy(a, b, if (a < 0) == (b < 0) then q else -q, if a < 0 then -r else r);
  }

  lemma DividesBy(a: int, b: int, q: int, r: int)
    requires b != 0 && a == Times(b, q) + r && Abs(r) < Abs(b) && (r > 0 ==> a > 0) && (r < 0 ==> a < 0)
    ensures Divides(a, b, q, r)
  {
  }

  lemma QuotientSmall(a: int, b: int)
    requires Small(a) && Small(b) && b != 0 && !(a == -9223372036854775808 && b == -1)
    ensures Small(Quotient(a, b))
  {
    hide Quotient, Remainder, Times;
    Parts(a, b);
  }

  lemma Halved(m: nat, n: nat)
    requires n >= 2
    ensures 2 * (m / n) <= m
  {
    assert m == n * (m / n) + m % n;
    assert n * (m / n) >= 2 * (m / n);
  }

  // Two literals fold wherever their operator has a value, and to that value.
  lemma FoldsTo(op: BinOp, a: Value, b: Value)
    ensures Computable(op, a, b) ==> FoldBinary(op, Lit(a), Lit(b)).Some?
    ensures FoldBinary(op, Lit(a), Lit(b)).Some? ==>
      var e := FoldBinary(op, Lit(a), Lit(b)).value; e.Lit? && Computes(op, a, b, e.value)
  {
    hide Typed, ComputesInt;
    if a.Int? && b.Int? { IntsFoldTo(op, a, b); } else { OthersFoldTo(op, a, b); }
  }

  lemma OthersFoldTo(op: BinOp, a: Value, b: Value)
    requires !a.Int? || !b.Int?
    ensures Computable(op, a, b) && !op.And? && !op.Or? ==> Typed(op, a, b).Some?
    ensures Typed(op, a, b).Some? ==> Computes(op, a, b, Typed(op, a, b).value)
  {
    hide Quotient, Remainder, ComputesInt;
  }

  lemma IntsFoldTo(op: BinOp, a: Value, b: Value)
    requires a.Int? && b.Int?
    ensures Computable(op, a, b) ==> Typed(op, a, b).Some?
    ensures Typed(op, a, b).Some? ==> ComputesInt(op, a.n, b.n, Typed(op, a, b).value)
  {
    hide Quotient, Remainder, Divides;
    if b.n != 0 {
      Truncates(a.n, b.n);
      if Small(a.n) && Small(b.n) && !(a.n == -9223372036854775808 && b.n == -1) { QuotientSmall(a.n, b.n); }
    }
  }

  // ---- the normal form ----

  // Nothing is left to do at the node itself.
  predicate Done(e: Expr) {
    match e
    case Bin(op, l, r) =>
      && (l.Lit? && r.Lit? ==> !Computable(op, l.value, r.value))
      && (op.Add? ==> l != Lit(Int(0)) && r != Lit(Int(0)))
      && (op.Sub? ==> r != Lit(Int(0)))
      && (op.Mul? ==> l != Lit(Int(1)) && r != Lit(Int(1)))
      && (op.Div? ==> r != Lit(Int(1)))
      && (op.And? ==> l != Lit(Bool(true)) && r != Lit(Bool(true)))
      && (op.Or? ==> l != Lit(Bool(false)) && r != Lit(Bool(false)))
      && (op.Eq? || op.NotEq? ==> !(l.Lit? && l.value.Bool?) && !(r.Lit? && r.value.Bool?))
    case Un(op, x) =>
      && !(x.Un? && x.uop == op)
      && !(x.Lit? && (op.Not? || (x.value.Int? && Small(x.value.n) && Small(-x.value.n))))
    case If(c, _, els) => c != Lit(Bool(true)) && (c == Lit(Bool(false)) ==> els.None?)
    case _ => true
  }

  // What a comparison with a boolean may leave: the negation of a literal or of a negation.
  predicate Leftover(e: Expr) {
    e.Un? && e.uop.Not? && (e.operand.Lit? || (e.operand.Un? && e.operand.uop.Not?))
  }

  predicate NormalExpr(e: Expr)
    decreases e, 1
  {
    (Done(e) || Leftover(e)) &&
    match e
    case Lit(_) => true
    case Var(_) => true
    case Bin(_, l, r) => NormalExpr(l) && NormalExpr(r)
    case Un(_, x) => NormalExpr(x)
    case Call(_, args) => NormalArgs(args)
    case If(c, t, f) => NormalExpr(c) && NormalBlock(t) && (f.Some? ==> NormalBlock(f.value))
    case BlockExpr(b) => NormalBlock(b)
    case Coalesce(l, r) => NormalExpr(l) && NormalExpr(r)
    case Loop(b) => NormalBlock(b)
  }

  predicate NormalArgs(args: seq<Expr>)
    decreases args, 0
  {
    args != [] ==> NormalExpr(args[0]) && NormalArgs(args[1..])
  }

  // A jump ends its block, which then has no tail.
  predicate NoneBehind(b: Block) {
    forall i | 0 <= i < |b.stmts| :: b.stmts[i].Return? || b.stmts[i].Break? || b.stmts[i].Continue? || b.stmts[i].Throw? ==>
      i == |b.stmts| - 1 && b.tail.None?
  }

  predicate NormalBlock(b: Block)
    decreases b, 0
  {
    NoneBehind(b) && NormalStmts(b.stmts) && (b.tail.Some? ==> NormalExpr(b.tail.value))
  }

  predicate NormalStmts(ss: seq<Stmt>)
    decreases ss, 0
  {
    ss != [] ==> NormalStmt(ss[0]) && NormalStmts(ss[1..])
  }

  predicate NormalStmt(st: Stmt)
    decreases st, 1
  {
    match st
    case Let(_, e) => NormalExpr(e)
    case Assign(_, e) => NormalExpr(e)
    case Output(e) => NormalExpr(e)
    case ExprStmt(e) => NormalExpr(e)
    case While(c, b) => NormalExpr(c) && NormalBlock(b)
    case DoWhile(b, c) => NormalBlock(b) && NormalExpr(c)
    case Return(e) => e.Some? ==> NormalExpr(e.value)
    case Throw(e) => NormalExpr(e)
    case FnDef(d) => NormalBlock(d.body)
    case Break => true
    case Continue => true
  }

  // ---- folding makes it ----

  lemma BinaryNormal(op: BinOp, l: Expr, r: Expr)
    requires NormalExpr(l) && NormalExpr(r)
    ensures NormalExpr(Simplify(Bin(op, l, r)))
  {
    hide NormalBlock, NormalArgs, Typed, Computable, Computes, FoldBinary;
    var e := Bin(op, l, r);
    if l.Lit? && r.Lit? {
      FoldsTo(op, l.value, r.value);
      if l.value.Bool? && r.value.Bool? { BoolsComputable(op, l.value, r.value); }
    } else {
      NoFold(op, l, r);
    }
    if Kept(op, l, r).None? && Compared(op, l, r).None? && FoldBinary(op, l, r).None? { NothingLeft(op, l, r); }
  }

  lemma BoolsComputable(op: BinOp, a: Value, b: Value)
    requires a.Bool? && b.Bool?
    ensures op.And? || op.Or? || op.Eq? || op.NotEq? ==> Computable(op, a, b)
  {
  }

  lemma NoFold(op: BinOp, l: Expr, r: Expr)
    requires !l.Lit? || !r.Lit?
    ensures FoldBinary(op, l, r).None?
  {
  }

  lemma NothingLeft(op: BinOp, l: Expr, r: Expr)
    requires Kept(op, l, r).None? && Compared(op, l, r).None?
    requires l.Lit? && r.Lit? ==> !Computable(op, l.value, r.value)
    ensures Done(Bin(op, l, r))
  {
  }

  lemma UnaryNormal(op: UnOp, x: Expr)
    requires NormalExpr(x)
    ensures NormalExpr(Simplify(Un(op, x)))
  {
    hide NormalBlock, NormalArgs, Typed, Computable;
  }

  lemma BranchNormal(c: Expr, t: Block, f: Option<Block>)
    requires NormalExpr(c) && NormalBlock(t) && (f.Some? ==> NormalBlock(f.value))
    ensures NormalExpr(Simplify(If(c, t, f)))
  {
    hide NormalBlock, Computable;
  }

  lemma {:induction false} FoldNormal(e: Expr)
    ensures NormalExpr(Fold(e))
    decreases e, 1
  {
    hide Simplify, NormalBlock;
    match e
    case Lit(_) =>
    case Var(_) =>
    case Bin(op, l, r) => FoldNormal(l); FoldNormal(r); BinaryNormal(op, Fold(l), Fold(r));
    case Un(op, x) => FoldNormal(x); UnaryNormal(op, Fold(x));
    case Call(_, args) => FoldArgsNormal(args);
    case If(c, t, f) =>
      FoldNormal(c);
      FoldBlockNormal(t);
      if f.Some? { FoldBlockNormal(f.value); }
      BranchNormal(Fold(c), FoldBlock(t), if f.Some? then Some(FoldBlock(f.value)) else None);
    case BlockExpr(b) => FoldBlockNormal(b);
    case Coalesce(l, r) => FoldNormal(l); FoldNormal(r);
    case Loop(b) => FoldBlockNormal(b);
  }

  lemma {:induction false} FoldArgsNormal(args: seq<Expr>)
    ensures NormalArgs(FoldArgs(args))
    decreases args, 0
  {
    hide Fold;
    if args != [] {
      FoldNormal(args[0]);
      FoldArgsNormal(args[1..]);
      assert FoldArgs(args)[1..] == FoldArgs(args[1..]);
    }
  }

  lemma {:induction false} FoldBlockNormal(b: Block)
    ensures NormalBlock(FoldBlock(b))
    decreases b, 1
  {
    hide Fold, NormalExpr, FoldStmts, NormalStmts, UpTo;
    FoldStmtsNormal(b.stmts);
    if b.tail.Some? { FoldNormal(b.tail.value); }
    var ss := FoldStmts(b.stmts);
    UpToNormal(ss, Jumps);
    UpToStops(ss, Jumps);
  }

  lemma {:induction false} UpToNormal(ss: seq<Stmt>, stop: Stmt -> bool)
    requires NormalStmts(ss)
    ensures NormalStmts(UpTo(ss, stop))
  {
    hide NormalStmt;
    if ss != [] {
      UpToNormal(ss[1..], stop);
      assert ([ss[0]] + UpTo(ss[1..], stop))[1..] == UpTo(ss[1..], stop);
      assert [ss[0]][1..] == [];
    }
  }

  lemma {:induction false} UpToStops(ss: seq<Stmt>, stop: Stmt -> bool)
    ensures forall i | 0 <= i < |UpTo(ss, stop)| - 1 :: !stop(UpTo(ss, stop)[i])
  {
    if ss != [] && !stop(ss[0]) {
      var rest := UpTo(ss[1..], stop);
      UpToStops(ss[1..], stop);
      forall i | 0 <= i < |rest| ensures ([ss[0]] + rest)[i + 1] == rest[i] {
      }
    }
  }

  lemma {:induction false} FoldStmtsNormal(ss: seq<Stmt>)
    ensures NormalStmts(FoldStmts(ss))
    decreases ss, 0
  {
    hide FoldStmt;
    if ss != [] {
      FoldStmtNormal(ss[0]);
      FoldStmtsNormal(ss[1..]);
      assert FoldStmts(ss)[1..] == FoldStmts(ss[1..]);
    }
  }

  lemma {:induction false} FoldStmtNormal(st: Stmt)
    ensures NormalStmt(FoldStmt(st)) && Jumps(FoldStmt(st)) == Jumps(st)
    decreases st, 1
  {
    hide Fold, FoldBlock, NormalExpr, NormalBlock;
    match st
    case Let(_, e) => FoldNormal(e);
    case Assign(_, e) => FoldNormal(e);
    case Output(e) => FoldNormal(e);
    case ExprStmt(e) => FoldNormal(e);
    case While(c, b) => FoldNormal(c); FoldBlockNormal(b);
    case DoWhile(b, c) => FoldNormal(c); FoldBlockNormal(b);
    case Return(e) => if e.Some? { FoldNormal(e.value); }
    case Throw(e) => FoldNormal(e);
    case FnDef(d) => FoldBlockNormal(d.body);
    case Break =>
    case Continue =>
  }

  // ---- the other passes keep it ----

  lemma {:induction false} TrimBlockNormal(b: Block)
    requires NormalBlock(b)
    ensures NormalBlock(TrimBlock(b))
    decreases b, 1
  {
    hide NormalExpr, NormalStmts, TrimStmts, UpTo;
    var ss := TrimStmts(b.stmts);
    TrimStmtsNormal(b.stmts);
    UpToNormal(ss, Ends);
    var cut := UpTo(ss, Ends);
    forall i | 0 <= i < |cut| && Jumps(cut[i]) ensures i == |cut| - 1 && b.tail.None? {
      assert cut[i] == ss[i] && Jumps(b.stmts[i]);
    }
  }

  lemma {:induction false} TrimStmtsNormal(ss: seq<Stmt>)
    requires NormalStmts(ss)
    ensures NormalStmts(TrimStmts(ss)) && forall i | 0 <= i < |ss| :: Jumps(TrimStmts(ss)[i]) == Jumps(ss[i])
    decreases ss, 0
  {
    hide NormalStmt, TrimStmt;
    if ss != [] {
      TrimStmtNormal(ss[0]);
      TrimStmtsNormal(ss[1..]);
      assert TrimStmts(ss)[1..] == TrimStmts(ss[1..]);
      forall i | 0 <= i < |ss| ensures Jumps(TrimStmts(ss)[i]) == Jumps(ss[i]) {
        if i > 0 { assert TrimStmts(ss)[i] == TrimStmts(ss[1..])[i - 1] && ss[i] == ss[1..][i - 1]; }
      }
    }
  }

  lemma {:induction false} TrimStmtNormal(st: Stmt)
    requires NormalStmt(st)
    ensures NormalStmt(TrimStmt(st)) && Jumps(TrimStmt(st)) == Jumps(st)
    decreases st, 1
  {
    hide NormalExpr, NormalBlock, TrimBlock;
    match st
    case While(_, b) => TrimBlockNormal(b);
    case DoWhile(b, _) => TrimBlockNormal(b);
    case FnDef(d) => TrimBlockNormal(d.body);
    case _ =>
  }

  lemma {:induction false} RefoldBlockNormal(b: Block)
    requires NormalBlock(b)
    ensures NormalBlock(RefoldBlock(b))
  {
    hide NormalExpr, NormalStmts, RefoldStmts;
    RefoldStmtsNormal(b.stmts);
    var ss := RefoldStmts(b.stmts);
    forall i | 0 <= i < |ss| && Jumps(ss[i]) ensures i == |ss| - 1 && b.tail.None? {
      assert Jumps(b.stmts[i]);
    }
  }

  lemma {:induction false} RefoldStmtsNormal(ss: seq<Stmt>)
    ensures NormalStmts(RefoldStmts(ss)) && forall i | 0 <= i < |ss| :: Jumps(RefoldStmts(ss)[i]) == Jumps(ss[i])
    decreases |ss|
  {
    hide NormalStmt, FoldStmt, RefoldInner;
    if ss != [] {
      FoldStmtNormal(RefoldInner(ss[0]));
      InnerJumps(ss[0]);
      RefoldStmtsNormal(ss[1..]);
      assert RefoldStmts(ss)[1..] == RefoldStmts(ss[1..]);
      forall i | 0 <= i < |ss| ensures Jumps(RefoldStmts(ss)[i]) == Jumps(ss[i]) {
        if i > 0 { assert RefoldStmts(ss)[i] == RefoldStmts(ss[1..])[i - 1] && ss[i] == ss[1..][i - 1]; }
      }
    }
  }

  lemma InnerJumps(st: Stmt)
    ensures Jumps(RefoldInner(st)) == Jumps(st)
  {
  }

  lemma {:induction false} RefoldTopNormal(p: Program)
    requires NormalStmts(p)
    ensures NormalStmts(RefoldTop(p))
  {
    hide NormalBlock, NormalExpr, RefoldBlock;
    if p != [] {
      RefoldTopNormal(p[1..]);
      assert RefoldTop(p)[1..] == RefoldTop(p[1..]);
      if p[0].FnDef? { RefoldBlockNormal(p[0].decl.body); }
    }
  }

  // Whatever the program: the optimized one is in normal form.
  lemma OptimizeNormal(p: Program)
    ensures NormalStmts(Optimize(p))
  {
    hide NormalStmts, FoldStmts, TrimStmts, RefoldTop;
    FoldStmtsNormal(p);
    TrimStmtsNormal(FoldStmts(p));
    RefoldTopNormal(TrimStmts(FoldStmts(p)));
  }

  // ---- dead-code removal by itself ----

  // In loops and functions, at any depth, nothing stands behind a return, break or throw.
  predicate TrimmedBlock(b: Block)
    decreases b, 1
  {
    && (forall i | 0 <= i < |b.stmts| - 1 :: !b.stmts[i].Return? && !b.stmts[i].Break? && !b.stmts[i].Throw?)
    && TrimmedStmts(b.stmts)
  }

  predicate TrimmedStmts(ss: seq<Stmt>)
    decreases ss, 0
  {
    ss != [] ==> TrimmedStmt(ss[0]) && TrimmedStmts(ss[1..])
  }

  predicate TrimmedStmt(st: Stmt)
    decreases st, 1
  {
    match st
    case While(_, b) => TrimmedBlock(b)
    case DoWhile(b, _) => TrimmedBlock(b)
    case FnDef(d) => TrimmedBlock(d.body)
    case _ => true
  }

  lemma {:induction false} Trimmed(ss: seq<Stmt>)
    ensures TrimmedStmts(TrimStmts(ss))
    decreases ss, 0
  {
    hide TrimStmt, TrimmedStmt;
    if ss != [] {
      OneTrimmed(ss[0]);
      Trimmed(ss[1..]);
      assert TrimStmts(ss)[1..] == TrimStmts(ss[1..]);
    }
  }

  lemma {:induction false} OneTrimmed(st: Stmt)
    ensures TrimmedStmt(TrimStmt(st))
    decreases st, 2
  {
    hide TrimBlock, TrimmedBlock;
    match st
    case While(_, b) => BodyTrimmed(b);
    case DoWhile(b, _) => BodyTrimmed(b);
    case FnDef(d) => BodyTrimmed(d.body);
    case _ =>
  }

  lemma {:induction false} BodyTrimmed(b: Block)
    ensures TrimmedBlock(TrimBlock(b))
    decreases b, 1
  {
    hide TrimStmts, TrimmedStmts, UpTo;
    Trimmed(b.stmts);
    UpToStops(TrimStmts(b.stmts), Ends);
    UpToTrimmed(TrimStmts(b.stmts), Ends);
  }

  lemma {:induction false} UpToTrimmed(ss: seq<Stmt>, stop: Stmt -> bool)
    requires TrimmedStmts(ss)
    ensures TrimmedStmts(UpTo(ss, stop))
  {
    hide TrimmedStmt;
    if ss != [] {
      UpToTrimmed(ss[1..], stop);
      assert ([ss[0]] + UpTo(ss[1..], stop))[1..] == UpTo(ss[1..], stop);
      assert [ss[0]][1..] == [];
    }
  }

  // ---- what is left over ----

  // A comparison of two finished operands leaves something to do if and only if one of them is a boolean literal, the
  // operator asks for the negation of the other, and that is a literal of another kind or a negation.
  lemma LeftoverExactly(op: BinOp, l: Expr, r: Expr)
    requires (op.Eq? || op.NotEq?) && Done(l) && Done(r)
    ensures !Done(Simplify(Bin(op, l, r)))
      <==> || (r == Lit(Bool(op.NotEq?)) && ((l.Lit? && !l.value.Bool?) || (l.Un? && l.uop.Not?)))
           || (l == Lit(Bool(op.NotEq?)) && ((r.Lit? && !r.value.Bool?) || (r.Un? && r.uop.Not?)))
  {
    hide Typed, Computes;
    if l.Lit? && r.Lit? {
      FoldsTo(op, l.value, r.value);
      BothLiterals(op, l.value, r.value);
    }
  }

  lemma BothLiterals(op: BinOp, a: Value, b: Value)
    requires op.Eq? || op.NotEq?
    ensures a.Bool? && b.Bool? ==> Computable(op, a, b)
  {
  }

  // output 5 == false: the optimized program still holds a negation that could be computed.
  lemma NegationStays()
    ensures Optimize([Output(Bin(Eq, Lit(Int(5)), Lit(Bool(false))))]) == [Output(Un(Not, Lit(Int(5))))]
  {
    var p, q := [Output(Bin(Eq, Lit(Int(5)), Lit(Bool(false))))], [Output(Un(Not, Lit(Int(5))))];
    assert p[1..] == [] && q[1..] == [];
    assert FoldStmts(p) == q;
    assert TrimStmts(q) == q;
    assert RefoldTop(q) == q;
  }

  function Printing(e: Expr): Program {
    [FnDef(FnDecl("f", [], Block([Output(e)], None)))]
  }

  // func f() { output 5 == false }: in a function it is computed, because function bodies are folded twice.
  lemma FunctionsTwice()
    ensures Optimize(Printing(Bin(Eq, Lit(Int(5)), Lit(Bool(false))))) == Printing(Lit(Bool(false)))
  {
    var e, e', e'' := Bin(Eq, Lit(Int(5)), Lit(Bool(false))), Un(Not, Lit(Int(5))), Lit(Bool(false));
    assert Fold(e) == e' && Fold(e') == e'';
    OneFolded(e);
    OneFolded(e');
    var q, r := Printing(e'), Printing(e'');
    assert FoldStmts(Printing(e)) == q by { assert Printing(e)[1..] == []; }
    assert q[1..] == [] && TrimStmts([Output(e')]) == [Output(e')];
    assert UpTo([Output(e')], Ends) == [Output(e')] by { assert [Output(e')][1..] == []; }
    assert TrimStmts(q) == q;
    assert RefoldStmts([Output(e')]) == [Output(e'')] by { assert [Output(e')][1..] == []; }
    assert RefoldTop(q) == r;
  }

  lemma OneFolded(e: Expr)
    ensures FoldBlock(Block([Output(e)], None)) == Block([Output(Fold(e))], None)
  {
    hide Fold;
    var ss := [Output(e)];
    assert ss[1..] == [];
    assert FoldStmts(ss) == [Output(Fold(e))];
  }
}
