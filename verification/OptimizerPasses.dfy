// The passes as the source runs them, rewriting node by node, and the size of
// what they leave.
module OptimizerPasses {
  import opened Wrappers
  import opened Syntax
  import opened OptimizerTyping
  import opened Optimizer
  import opened OptimizerNormal

  // Children first, then the node.
  method FoldExpr(e: Expr) returns (r: Expr)
    ensures r == Fold(e)
    decreases e, 1
  {
    hide Simplify;
    match e
    case Lit(_) => r := e;
    case Var(_) => r := e;
    case Bin(op, l, right) =>
      var l' := FoldExpr(l);
      var r' := FoldExpr(right);
      r := SimplifyNode(Bin(op, l', r'));
    case Un(op, x) =>
      var x' := FoldExpr(x);
      r := SimplifyNode(Un(op, x'));
    case Call(fn, args) =>
      var args' := FoldArguments(args);
      r := Call(fn, args');
    case If(c, t, f) =>
      var c' := FoldExpr(c);
      var t' := FoldBlockIn(t);
      var f' := None;
      if f.Some? {
        var b := FoldBlockIn(f.value);
        f' := Some(b);
      }
      r := SimplifyNode(If(c', t', f'));
    case BlockExpr(b) =>
      var b' := FoldBlockIn(b);
      r := BlockExpr(b');
    case Coalesce(l, right) =>
      var l' := FoldExpr(l);
      var r' := FoldExpr(right);
      r := Coalesce(l', r');
    case Loop(b) =>
      var b' := FoldBlockIn(b);
      r := Loop(b');
  }

  // The rules in the order the source tries them.
  method SimplifyNode(e: Expr) returns (r: Expr)
    ensures r == Simplify(e)
  {
    if e.If? {
      if IsBool(e.cond, true) { return BlockExpr(e.thn); }
      if IsBool(e.cond, false) && e.els.Some? { return BlockExpr(e.els.value); }
      return e;
    }
    if e.Un? && e.operand.Un? && e.uop == e.operand.uop {
      return e.operand.operand;
    }
    if e.Bin? {
      var kept := Kept(e.op, e.left, e.right);
      if kept.Some? { return kept.value; }
      var compared := Compared(e.op, e.left, e.right);
      if compared.Some? { return compared.value; }
    }
    var folded := if e.Bin? then FoldBinary(e.op, e.left, e.right) else if e.Un? then FoldUnary(e.uop, e.operand) else None;
    r := if folded.Some? then folded.value else e;
  }

  method FoldArguments(args: seq<Expr>) returns (r: seq<Expr>)
    ensures r == FoldArgs(args)
    decreases args, 0
  {
    hide Fold;
    r := [];
    var i := 0;
    assert args[0..] == args && [] + FoldArgs(args) == FoldArgs(args);
    while i < |args|
      invariant 0 <= i <= |args| && r + FoldArgs(args[i..]) == FoldArgs(args)
    {
      var x := FoldExpr(args[i]);
      assert args[i..][1..] == args[i + 1..];
      assert r + ([x] + FoldArgs(args[i + 1..])) == r + [x] + FoldArgs(args[i + 1..]);
      r := r + [x];
      i := i + 1;
    }
    assert r + [] == r;
  }

  // Statements, tail, then the cut after the first jump.
  method FoldBlockIn(b: Block) returns (r: Block)
    ensures r == FoldBlock(b)
    decreases b, 1
  {
    hide Fold, FoldStmts;
    var ss := FoldStatements(b.stmts);
    var tail := None;
    if b.tail.Some? {
      var t := FoldExpr(b.tail.value);
      tail := Some(t);
    }
    var pos := FirstJump(ss, Jumps);
    if pos < |ss| {
      return Block(ss[..pos + 1], None);
    }
    r := Block(ss, tail);
  }

  // Position of the first statement that satisfies `stop`, or the length.
  method FirstJump(ss: seq<Stmt>, stop: Stmt -> bool) returns (pos: nat)
    ensures pos <= |ss| && (forall i | 0 <= i < pos :: !stop(ss[i])) && (pos < |ss| ==> stop(ss[pos]))
    ensures UpTo(ss, stop) == if pos < |ss| then ss[..pos + 1] else ss
  {
    pos := 0;
    while pos < |ss| && !stop(ss[pos])
      invariant pos <= |ss| && forall i | 0 <= i < pos :: !stop(ss[i])
    {
      pos := pos + 1;
    }
    UpToFirst(ss, stop, pos);
  }

  lemma {:induction false} UpToFirst(ss: seq<Stmt>, stop: Stmt -> bool, pos: nat)
    requires pos <= |ss| && (forall i | 0 <= i < pos :: !stop(ss[i])) && (pos < |ss| ==> stop(ss[pos]))
    ensures UpTo(ss, stop) == if pos < |ss| then ss[..pos + 1] else ss
  {
    if pos > 0 {
      forall i | 0 <= i < pos - 1 ensures !stop(ss[1..][i]) { assert ss[1..][i] == ss[i + 1]; }
      UpToFirst(ss[1..], stop, pos - 1);
      if pos < |ss| {
        assert [ss[0]] + ss[1..][..pos] == ss[..pos + 1];
      } else {
        assert [ss[0]] + ss[1..] == ss;
      }
    } else if ss != [] {
      assert ss[..1] == [ss[0]];
    }
  }

  method FoldStatements(ss: seq<Stmt>) returns (r: seq<Stmt>)
    ensures r == FoldStmts(ss)
    decreases ss, 0
  {
    hide FoldStmt;
    r := [];
    var i := 0;
    assert ss[0..] == ss && [] + FoldStmts(ss) == FoldStmts(ss);
    while i < |ss|
      invariant 0 <= i <= |ss| && r + FoldStmts(ss[i..]) == FoldStmts(ss)
    {
      var x := FoldStatement(ss[i]);
      assert ss[i..][1..] == ss[i + 1..];
      assert r + ([x] + FoldStmts(ss[i + 1..])) == r + [x] + FoldStmts(ss[i + 1..]);
      r := r + [x];
      i := i + 1;
    }
    assert r + [] == r;
  }

  method FoldStatement(st: Stmt) returns (r: Stmt)
    ensures r == FoldStmt(st)
    decreases st, 1
  {
    hide Fold, FoldBlock;
    match st
    case Let(x, e) => var e' := FoldExpr(e); r := Let(x, e');
    case Assign(x, e) => var e' := FoldExpr(e); r := Assign(x, e');
    case Output(e) => var e' := FoldExpr(e); r := Output(e');
    case ExprStmt(e) => var e' := FoldExpr(e); r := ExprStmt(e');
    case Throw(e) => var e' := FoldExpr(e); r := Throw(e');
    case While(c, b) =>
      var c' := FoldExpr(c);
      var b' := FoldBlockIn(b);
      r := While(c', b');
    case DoWhile(b, c) =>
      var b' := FoldBlockIn(b);
      var c' := FoldExpr(c);
      r := DoWhile(b', c');
    case Return(e) =>
      r := st;
      if e.Some? {
        var e' := FoldExpr(e.value);
        r := Return(Some(e'));
      }
    case FnDef(d) =>
      var b := FoldBlockIn(d.body);
      r := FnDef(d.(body := b));
    case Break => r := st;
    case Continue => r := st;
  }

  // Nested statements first, then the cut.
  method TrimBlockIn(b: Block) returns (r: Block)
    ensures r == TrimBlock(b)
    decreases b, 1
  {
    var ss := TrimStatements(b.stmts);
    var pos := FirstJump(ss, Ends);
    if pos < |ss| {
      ss := ss[..pos + 1];
    }
    r := b.(stmts := ss);
  }

  method TrimStatements(ss: seq<Stmt>) returns (r: seq<Stmt>)
    ensures r == TrimStmts(ss)
    decreases ss, 0
  {
    hide TrimStmt;
    r := [];
    var i := 0;
    assert ss[0..] == ss && [] + TrimStmts(ss) == TrimStmts(ss);
    while i < |ss|
      invariant 0 <= i <= |ss| && r + TrimStmts(ss[i..]) == TrimStmts(ss)
    {
      var x := TrimStatement(ss[i]);
      assert ss[i..][1..] == ss[i + 1..];
      assert r + ([x] + TrimStmts(ss[i + 1..])) == r + [x] + TrimStmts(ss[i + 1..]);
      r := r + [x];
      i := i + 1;
    }
    assert r + [] == r;
  }

  method TrimStatement(st: Stmt) returns (r: Stmt)
    ensures r == TrimStmt(st)
    decreases st, 1
  {
    match st
    case While(c, b) =>
      var b' := TrimBlockIn(b);
      r := While(c, b');
    case DoWhile(b, c) =>
      var b' := TrimBlockIn(b);
      r := DoWhile(b', c);
    case FnDef(d) =>
      var b := TrimBlockIn(d.body);
      r := FnDef(d.(body := b));
    case _ => r := st;
  }

  // The pass over function bodies that folds again, inner loops first.
  method RefoldBlockIn(b: Block) returns (r: Block)
    ensures r == RefoldBlock(b)
    decreases b, 1
  {
    hide FoldStmt;
    var ss, done: seq<Stmt>, i := b.stmts, [], 0;
    assert ss[0..] == ss && [] + RefoldStmts(ss) == RefoldStmts(ss);
    while i < |ss|
      invariant 0 <= i <= |ss| && done + RefoldStmts(ss[i..]) == RefoldStmts(ss)
    {
      var inner := RefoldNested(ss[i]);
      var x := FoldStatement(inner);
      assert ss[i..][1..] == ss[i + 1..];
      assert done + ([x] + RefoldStmts(ss[i + 1..])) == done + [x] + RefoldStmts(ss[i + 1..]);
      done := done + [x];
      i := i + 1;
    }
    assert done + [] == done;
    r := b.(stmts := done);
  }

  method RefoldNested(st: Stmt) returns (r: Stmt)
    ensures r == RefoldInner(st)
    decreases st, 0
  {
    match st
    case While(c, b) =>
      var b' := RefoldBlockIn(b);
      r := While(c, b');
    case DoWhile(b, c) =>
      var b' := RefoldBlockIn(b);
      r := DoWhile(b', c);
    case FnDef(d) =>
      var b := RefoldBlockIn(d.body);
      r := FnDef(d.(body := b));
    case _ => r := st;
  }

  // The result is in normal form, whatever the program.
  method OptimizeProgram(p: Program) returns (r: Program)
    ensures r == Optimize(p) && NormalStmts(r)
  {
    hide FoldStmts, TrimStmts, RefoldBlock, NormalStmts;
    OptimizeNormal(p);
    var folded := FoldStatements(p);
    var trimmed := TrimStatements(folded);
    r := [];
    var i := 0;
    assert trimmed[0..] == trimmed && [] + RefoldTop(trimmed) == RefoldTop(trimmed);
    while i < |trimmed|
      invariant 0 <= i <= |trimmed| && r + RefoldTop(trimmed[i..]) == RefoldTop(trimmed)
    {
      var x := trimmed[i];
      if x.FnDef? {
        var body := RefoldBlockIn(x.decl.body);
        x := FnDef(x.decl.(body := body));
      }
      assert trimmed[i..][1..] == trimmed[i + 1..];
      assert r + ([x] + RefoldTop(trimmed[i + 1..])) == r + [x] + RefoldTop(trimmed[i + 1..]);
      r := r + [x];
      i := i + 1;
    }
    assert r + [] == r;
  }

  // ---- size ----

  function Nodes(e: Expr): nat
    decreases e, 1
  {
    match e
    case Lit(_) => 1
    case Var(_) => 1
    case Bin(_, l, r) => 1 + Nodes(l) + Nodes(r)
    case Un(_, x) => 1 + Nodes(x)
    case Call(_, args) => 1 + NodesArgs(args)
    case If(c, t, f) => 1 + Nodes(c) + NodesBlock(t) + (if f.Some? then NodesBlock(f.value) else 0)
    case BlockExpr(b) => 1 + NodesBlock(b)
    case Coalesce(l, r) => 1 + Nodes(l) + Nodes(r)
    case Loop(b) => 1 + NodesBlock(b)
  }

  function NodesArgs(args: seq<Expr>): nat
    decreases args, 0
  {
    if args == [] then 0 else Nodes(args[0]) + NodesArgs(args[1..])
  }

  function NodesBlock(b: Block): nat
    decreases b, 1
  {
    1 + NodesStmts(b.stmts) + (if b.tail.Some? then Nodes(b.tail.value) else 0)
  }

  function NodesStmts(ss: seq<Stmt>): nat
    decreases ss, 0
  {
    if ss == [] then 0 else NodesStmt(ss[0]) + NodesStmts(ss[1..])
  }

  function NodesStmt(st: Stmt): nat
    decreases st, 1
  {
    match st
    case Let(_, e) => 1 + Nodes(e)
    case Assign(_, e) => 1 + Nodes(e)
    case Output(e) => 1 + Nodes(e)
    case ExprStmt(e) => 1 + Nodes(e)
    case Throw(e) => 1 + Nodes(e)
    case Return(e) => 1 + (if e.Some? then Nodes(e.value) else 0)
    case While(c, b) => 1 + Nodes(c) + NodesBlock(b)
    case DoWhile(b, c) => 1 + NodesBlock(b) + Nodes(c)
    case FnDef(d) => 1 + NodesBlock(d.body)
    case Break => 1
    case Continue => 1
  }

  lemma SimplifyShrinks(e: Expr)
    ensures Nodes(Simplify(e)) <= Nodes(e)
  {
    hide Typed;
  }

  lemma {:induction false} UpToShrinks(ss: seq<Stmt>, stop: Stmt -> bool)
    ensures NodesStmts(UpTo(ss, stop)) <= NodesStmts(ss)
  {
    hide NodesStmt;
    if ss != [] {
      UpToShrinks(ss[1..], stop);
      assert ([ss[0]] + UpTo(ss[1..], stop))[1..] == UpTo(ss[1..], stop);
      assert [ss[0]][1..] == [];
    }
  }

  lemma {:induction false} FoldShrinks(e: Expr)
    ensures Nodes(Fold(e)) <= Nodes(e)
    decreases e, 1
  {
    hide Simplify;
    match e
    case Lit(_) =>
    case Var(_) =>
    case Bin(op, l, r) =>
      FoldShrinks(l);
      FoldShrinks(r);
      SimplifyShrinks(Bin(op, Fold(l), Fold(r)));
    case Un(op, x) =>
      FoldShrinks(x);
      SimplifyShrinks(Un(op, Fold(x)));
    case Call(_, args) => FoldArgsShrink(args);
    case If(c, t, f) =>
      FoldShrinks(c);
      FoldBlockShrinks(t);
      if f.Some? { FoldBlockShrinks(f.value); }
      SimplifyShrinks(If(Fold(c), FoldBlock(t), if f.Some? then Some(FoldBlock(f.value)) else None));
    case BlockExpr(b) => FoldBlockShrinks(b);
    case Coalesce(l, r) =>
      FoldShrinks(l);
      FoldShrinks(r);
    case Loop(b) => FoldBlockShrinks(b);
  }

  lemma {:induction false} FoldArgsShrink(args: seq<Expr>)
    ensures NodesArgs(FoldArgs(args)) <= NodesArgs(args)
    decreases args, 0
  {
    if args != [] {
      FoldShrinks(args[0]);
      FoldArgsShrink(args[1..]);
    }
  }

  lemma {:induction false} FoldBlockShrinks(b: Block)
    ensures NodesBlock(FoldBlock(b)) <= NodesBlock(b)
    decreases b, 1
  {
    FoldStmtsShrink(b.stmts);
    if b.tail.Some? { FoldShrinks(b.tail.value); }
    UpToShrinks(FoldStmts(b.stmts), Jumps);
  }

  lemma {:induction false} FoldStmtsShrink(ss: seq<Stmt>)
    ensures NodesStmts(FoldStmts(ss)) <= NodesStmts(ss)
    decreases ss, 0
  {
    if ss != [] {
      FoldStmtShrinks(ss[0]);
      FoldStmtsShrink(ss[1..]);
    }
  }

  lemma {:induction false} FoldStmtShrinks(st: Stmt)
    ensures NodesStmt(FoldStmt(st)) <= NodesStmt(st)
    decreases st, 1
  {
    match st
    case Let(_, e) => FoldShrinks(e);
    case Assign(_, e) => FoldShrinks(e);
    case Output(e) => FoldShrinks(e);
    case ExprStmt(e) => FoldShrinks(e);
    case Throw(e) => FoldShrinks(e);
    case Return(e) => if e.Some? { FoldShrinks(e.value); }
    case While(c, b) => FoldShrinks(c); FoldBlockShrinks(b);
    case DoWhile(b, c) => FoldBlockShrinks(b); FoldShrinks(c);
    case FnDef(d) => FoldBlockShrinks(d.body);
    case Break =>
    case Continue =>
  }

  lemma {:induction false} TrimBlockShrinks(b: Block)
    ensures NodesBlock(TrimBlock(b)) <= NodesBlock(b)
    decreases b, 1
  {
    TrimStmtsShrink(b.stmts);
    UpToShrinks(TrimStmts(b.stmts), Ends);
  }

  lemma {:induction false} TrimStmtsShrink(ss: seq<Stmt>)
    ensures NodesStmts(TrimStmts(ss)) <= NodesStmts(ss)
    decreases ss, 0
  {
    if ss != [] {
      TrimStmtShrinks(ss[0]);
      TrimStmtsShrink(ss[1..]);
    }
  }

  lemma {:induction false} TrimStmtShrinks(st: Stmt)
    ensures NodesStmt(TrimStmt(st)) <= NodesStmt(st)
    decreases st, 1
  {
    match st
    case While(_, b) => TrimBlockShrinks(b);
    case DoWhile(b, _) => TrimBlockShrinks(b);
    case FnDef(d) => TrimBlockShrinks(d.body);
    case _ =>
  }

  lemma {:induction false} RefoldStmtsShrink(ss: seq<Stmt>)
    ensures NodesStmts(RefoldStmts(ss)) <= NodesStmts(ss)
    decreases ss, 0
  {
    if ss != [] {
      RefoldInnerShrinks(ss[0]);
      FoldStmtShrinks(RefoldInner(ss[0]));
      RefoldStmtsShrink(ss[1..]);
    }
  }

  lemma {:induction false} RefoldInnerShrinks(st: Stmt)
    ensures NodesStmt(RefoldInner(st)) <= NodesStmt(st)
    decreases st, 1
  {
    match st
    case While(_, b) => RefoldStmtsShrink(b.stmts);
    case DoWhile(b, _) => RefoldStmtsShrink(b.stmts);
    case FnDef(d) => RefoldStmtsShrink(d.body.stmts);
    case _ =>
  }

  lemma {:induction false} RefoldTopShrinks(p: Program)
    ensures NodesStmts(RefoldTop(p)) <= NodesStmts(p)
  {
    if p != [] {
      RefoldInnerShrinks(p[0]);
      RefoldTopShrinks(p[1..]);
      assert NodesStmt(RefoldTop(p)[0]) <= NodesStmt(p[0]);
      assert RefoldTop(p)[1..] == RefoldTop(p[1..]);
    }
  }

  // Optimization never makes a program larger.
  lemma OptimizeShrinks(p: Program)
    ensures NodesStmts(Optimize(p)) <= NodesStmts(p)
  {
    FoldStmtsShrink(p);
    TrimStmtsShrink(FoldStmts(p));
    RefoldTopShrinks(TrimStmts(FoldStmts(p)));
  }
}
