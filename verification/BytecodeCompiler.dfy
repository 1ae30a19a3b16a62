// The bytecode compiler as the source writes it: one object that appends to a
// chunk and patches forward jumps in place.  Each method is proved to emit what
// BytecodeGen specifies.
module BytecodeCompiler {
  import opened Wrappers
  import opened Syntax
  import opened Semantics
  import opened Pools
  import opened BytecodeMachine
  import opened BytecodeGen

  class Compiler {
    // the chunk being written
    var code: seq<nat>
    var constants: seq<Value>
    var locals: seq<string>
    // shared by all chunks
    var names: seq<string>
    var functions: map<string, FnChunk>

    ghost function Tables(): Tab
      reads this`locals, this`names, this`constants, this`functions
    {
      Tab(locals, names, constants, functions)
    }

    constructor ()
      ensures code == [] && Tables() == Tab([], [], [], map[])
    {
      code, constants, locals, names, functions := [], [], [], [], map[];
    }

    // ---- the chunk ----

    method Emit(op: Op)
      modifies this`code
      ensures code == old(code) + Encode(op)
    {
      code := code + Encode(op);
    }

    // Appends a jump whose target is not known yet and returns the address of its operand.
    method EmitForward(op: Op) returns (hole: nat)
      requires op == Jump(0) || op == JumpIfFalse(0)
      modifies this`code
      ensures code == old(code) + Encode(op) && hole == |old(code)| + 1
    {
      code := code + Encode(op);
      hole := |code| - 2;
    }

    // Writes the current end of the code into a jump's operand.
    method PatchHere(hole: nat)
      requires hole + 1 < |code|
      modifies this`code
      ensures code == Patched(old(code), hole, |old(code)|)
    {
      var end := |code|;
      code := code[hole := end / 256 % 256];
      code := code[hole + 1 := end % 256];
    }

    method AddConstant(v: Value) returns (idx: nat)
      modifies this`constants
      ensures constants == old(constants) + [v] && idx == |old(constants)|
    {
      constants := constants + [v];
      idx := |constants| - 1;
    }

    method AddName(name: string) returns (idx: nat)
      modifies this`names
      ensures names == Interned(old(names), name) && idx == InternIndex(old(names), name)
    {
      var i := 0;
      while i < |names|
        invariant 0 <= i <= |names| && name !in names[..i]
      {
        if names[i] == name {
          FirstAt(names, name, i);
          return i;
        }
        i := i + 1;
      }
      assert names[..i] == names;
      names := names + [name];
      idx := |names| - 1;
    }

    // From the last declaration backwards.
    method ResolveLocal(name: string) returns (r: Option<nat>)
      ensures r == SlotOf(locals, name)
    {
      var i := |locals|;
      while i > 0
        invariant 0 <= i <= |locals| && name !in locals[i..]
      {
        i := i - 1;
        if locals[i] == name {
          LastAt(locals, name, i);
          return Some(i);
        }
      }
      return None;
    }

    // ---- expressions ----

    // What a compile method appended and recorded.
    twostate predicate Emits(new out: Out)
      reads this
    {
      code == old(code) + out.code && Tables() == out.tab
    }

    method CompileExpr(e: Expr)
      modifies this`code, this`constants, this`names, this`functions, this`locals
      ensures Emits(GenExpr(e, |old(code)|, old(Tables())))
      decreases e, 2
    {
      hide Encode;
      match e
      case Lit(v) => CompileLiteral(v);
      case Var(name) => CompileLoad(name);
      case Bin(op, left, right) => CompileBinary(e);
      case Un(uop, operand) =>
        CompileExpr(operand);
        Emit(if uop.Not? then Invert else Negate);
      case Call(_, _) => CompileCall(e);
      case If(_, _, _) => CompileIf(e);
      case BlockExpr(_) => Emit(PushNull);
      case Coalesce(_, _) => Emit(PushNull);
      case Loop(_) => Emit(PushNull);
    }

    method CompileLiteral(v: Value)
      modifies this`code, this`constants
      ensures Emits(GenConst(v, old(Tables())))
    {
      hide Encode;
      match v
      case Null => Emit(PushNull);
      case Bool(b) => Emit(if b then PushTrue else PushFalse);
      case _ =>
        var idx := AddConstant(v);
        Emit(PushConst(idx));
    }

    method CompileLoad(name: string)
      modifies this`code, this`names
      ensures Emits(GenLoad(name, old(Tables())))
    {
      hide Encode;
      var slot := ResolveLocal(name);
      if slot.Some? {
        Emit(LoadLocal(slot.value));
      } else {
        var idx := AddName(name);
        Emit(LoadGlobal(idx));
      }
    }

    method CompileStore(name: string)
      modifies this`code, this`names
      ensures Emits(GenStore(name, old(Tables())))
    {
      hide Encode;
      var slot := ResolveLocal(name);
      if slot.Some? {
        Emit(StoreLocal(slot.value));
      } else {
        var idx := AddName(name);
        Emit(StoreGlobal(idx));
      }
    }

    method CompileBinary(e: Expr)
      requires e.Bin?
      modifies this`code, this`constants, this`names, this`functions, this`locals
      ensures Emits(GenExpr(e, |old(code)|, old(Tables())))
      decreases e, 1
    {
      hide GenExpr, Encode;
      ghost var before, t := code, Tables();
      BinaryGen(e, |code|, t);
      CompileExpr(e.left);
      ghost var l := GenExpr(e.left, |before|, t);
      CompileExpr(e.right);
      ghost var r := GenExpr(e.right, |before| + |l.code|, l.tab);
      if Supported(e.op) {
        Emit(Binary(e.op));
        Join3(before, l.code, r.code, Encode(Binary(e.op)));
      } else {
        Join3(before, l.code, r.code, []);
      }
    }

    method CompileCall(e: Expr)
      requires e.Call?
      modifies this`code, this`constants, this`names, this`functions, this`locals
      ensures Emits(GenExpr(e, |old(code)|, old(Tables())))
      decreases e, 1
    {
      hide GenExpr, GenArgs, Encode;
      ghost var before, t := code, Tables();
      CallGen(e, |code|, t);
      var i := 0;
      ghost var done: seq<nat> := [];
      assert e.args[0..] == e.args;
      PrefixNone(GenArgs(e.args, |before|, t));
      while i < |e.args|
        invariant 0 <= i <= |e.args| && code == before + done
        invariant GenArgs(e.args, |before|, t) == Prefixed(done, GenArgs(e.args[i..], |code|, Tables()))
      {
        ArgsGen(e.args[i..], |code|, Tables());
        ghost var x := GenExpr(e.args[i], |code|, Tables());
        CompileExpr(e.args[i]);
        Join2(before, done, x.code);
        assert e.args[i..][1..] == e.args[i + 1..];
        PrefixMore(done, x.code, GenArgs(e.args[i + 1..], |code|, Tables()));
        done := done + x.code;
        i := i + 1;
      }
      ArgsGen(e.args[i..], |code|, Tables());
      assert done + [] == done;
      ghost var a := GenArgs(e.args, |before|, t);
      assert code == before + a.code && Tables() == a.tab;
      var idx := AddName(e.fn);
      Emit(CallFn(idx, |e.args|));
      Join2(before, a.code, Encode(CallFn(idx, |e.args|)));
    }

    method CompileIf(e: Expr)
      requires e.If?
      modifies this`code, this`constants, this`names, this`functions, this`locals
      ensures Emits(GenExpr(e, |old(code)|, old(Tables())))
      decreases e, 1
    {
      hide GenExpr, GenInner, GenElse, Encode;
      ghost var before, t := code, Tables();
      IfGen(e, |code|, t);
      CompileExpr(e.cond);
      ghost var x := GenExpr(e.cond, |before|, t);
      var overElse := CompileThen(e.thn);
      ghost var late := |code|;
      ghost var a := GenInner(e.thn, |before| + |x.code| + 3, x.tab);
      CompileElse(e.els);
      ghost var b := GenElse(e.els, late, a.tab);
      PatchHere(overElse);
      PatchEnd(before, x.code, late, a.code, b.code);
    }

    // From the test to the jump over the else branch, whose target is still open.
    method CompileThen(thn: Block) returns (overElse: nat)
      modifies this`code, this`constants, this`names, this`functions, this`locals
      ensures var a := GenInner(thn, |old(code)| + 3, old(Tables()));
        && code == old(code) + Encode(JumpIfFalse(|code|)) + a.code + Encode(Jump(0))
        && Tables() == a.tab && overElse == |code| - 2
      decreases thn, 2
    {
      hide GenInner, Encode;
      ghost var before := code;
      var toElse := EmitForward(JumpIfFalse(0));
      ghost var a := GenInner(thn, |code|, Tables());
      CompileInner(thn);
      overElse := EmitForward(Jump(0));
      PatchHere(toElse);
      PatchElse(before, a.code);
    }

    method CompileElse(els: Option<Block>)
      modifies this`code, this`constants, this`names, this`functions, this`locals
      ensures Emits(GenElse(els, |old(code)|, old(Tables())))
      decreases els, 1
    {
      hide Encode, GenInner;
      if els.Some? {
        CompileInner(els.value);
      } else {
        Emit(PushNull);
      }
    }

    // ---- statements ----

    // The statements of a block, then its tail.
    method CompileInner(b: Block)
      modifies this`code, this`constants, this`names, this`functions, this`locals
      ensures Emits(GenInner(b, |old(code)|, old(Tables())))
      decreases b, 1
    {
      hide GenStmts, GenExpr;
      ghost var before, t := code, Tables();
      CompileStmts(b.stmts);
      ghost var ss := GenStmts(b.stmts, |before|, t);
      if b.tail.Some? {
        CompileExpr(b.tail.value);
        Join2(before, ss.code, GenExpr(b.tail.value, |before| + |ss.code|, ss.tab).code);
      }
    }

    method CompileStmts(stmts: seq<Stmt>)
      modifies this`code, this`constants, this`names, this`functions, this`locals
      ensures Emits(GenStmts(stmts, |old(code)|, old(Tables())))
      decreases stmts, 0
    {
      hide GenStmts, GenStmt, Encode;
      ghost var before, t := code, Tables();
      var i := 0;
      ghost var done: seq<nat> := [];
      assert stmts[0..] == stmts;
      PrefixNone(GenStmts(stmts, |before|, t));
      while i < |stmts|
        invariant 0 <= i <= |stmts| && code == before + done
        invariant GenStmts(stmts, |before|, t) == Prefixed(done, GenStmts(stmts[i..], |code|, Tables()))
      {
        StmtsGen(stmts[i..], |code|, Tables());
        ghost var x := GenStmt(stmts[i], |code|, Tables());
        CompileStmt(stmts[i]);
        Join2(before, done, x.code);
        assert stmts[i..][1..] == stmts[i + 1..];
        PrefixMore(done, x.code, GenStmts(stmts[i + 1..], |code|, Tables()));
        done := done + x.code;
        i := i + 1;
      }
      StmtsGen(stmts[i..], |code|, Tables());
      assert done + [] == done;
    }

    method CompileStmt(st: Stmt)
      modifies this`code, this`constants, this`names, this`functions, this`locals
      ensures Emits(GenStmt(st, |old(code)|, old(Tables())))
      decreases st, 3
    {
      hide Encode, GenExpr, GenStmts;
      ghost var before, t := code, Tables();
      match st
      case Let(name, value) =>
        CompileExpr(value);
        var idx := |locals|;
        locals := locals + [name];
        Emit(StoreLocal(idx));
        Join2(before, GenExpr(value, |before|, t).code, Encode(StoreLocal(idx)));
      case Assign(name, value) =>
        CompileExpr(value);
        ghost var x := GenExpr(value, |before|, t);
        CompileStore(name);
        Join2(before, x.code, GenStore(name, x.tab).code);
      case Output(value) =>
        CompileExpr(value);
        Emit(Print);
      case ExprStmt(e) =>
        CompileExpr(e);
        Emit(Pop);
      case While(_, _) => CompileWhile(st);
      case DoWhile(_, _) => CompileDoWhile(st);
      case Return(result) =>
        if result.Some? {
          CompileExpr(result.value);
          Emit(Leave);
        } else {
          Emit(PushNull);
          Emit(Leave);
        }
      case Throw(value) =>
        CompileExpr(value);
        Emit(Leave);
      case Break =>
      case Continue =>
      case FnDef(decl) => CompileFunction(decl);
    }

    method CompileWhile(st: Stmt)
      requires st.While?
      modifies this`code, this`constants, this`names, this`functions, this`locals
      ensures Emits(GenStmt(st, |old(code)|, old(Tables())))
      decreases st, 1
    {
      hide Encode, GenExpr, GenStmts, GenStmt, Patched, Extends;
      ghost var before, t := code, Tables();
      WhileGen(st, |code|, t);
      var start := |code|;
      CompileExpr(st.cond);
      ghost var x := GenExpr(st.cond, start, t);
      var exit := EmitForward(JumpIfFalse(0));
      ghost var mid := |code|;
      CompileStmts(st.body.stmts);
      ghost var b := GenStmts(st.body.stmts, mid, x.tab);
      CloseWhile(start, exit);
      PatchExit(before, x.code, b.code, start);
    }

    // The jump back, and the exit patched to the place after it.
    method CloseWhile(start: nat, exit: nat)
      requires exit + 1 < |code|
      modifies this`code
      ensures var closed := old(code) + Encode(Jump(start)); code == Patched(closed, exit, |closed|)
    {
      Emit(Jump(start));
      PatchHere(exit);
    }

    method CompileDoWhile(st: Stmt)
      requires st.DoWhile?
      modifies this`code, this`constants, this`names, this`functions, this`locals
      ensures Emits(GenStmt(st, |old(code)|, old(Tables())))
      decreases st, 1
    {
      hide Encode, GenExpr, GenStmts, GenStmt;
      ghost var before, t := code, Tables();
      DoWhileGen(st, |code|, t);
      var start := |code|;
      CompileStmts(st.body.stmts);
      ghost var b := GenStmts(st.body.stmts, start, t);
      CompileExpr(st.cond);
      ghost var x := GenExpr(st.cond, start + |b.code|, b.tab);
      Emit(JumpIfTrue(start));
      Join3(before, b.code, x.code, Encode(JumpIfTrue(start)));
    }

    // The body goes to a chunk of its own; the current chunk and locals are put aside meanwhile.
    method CompileFunction(decl: FnDecl)
      modifies this`code, this`constants, this`names, this`functions, this`locals
      ensures code == old(code) && locals == old(locals) && constants == old(constants)
      ensures var out := GenFunction(decl, old(Tables()));
        && names == out.tab.names
        && functions == out.tab.functions[decl.name := FnChunk(Chunk(out.code, out.tab.constants), decl.params)]
      decreases decl, 2
    {
      hide Encode, GenInner;
      var savedCode, savedConstants, savedLocals := code, constants, locals;
      ghost var t := Tables();
      code, constants := [], [];
      locals := [];
      var i := 0;
      while i < |decl.params|
        invariant 0 <= i <= |decl.params| && locals == decl.params[..i]
        modifies this`locals
      {
        locals := locals + [decl.params[i]];
        i := i + 1;
      }
      assert decl.params[..|decl.params|] == decl.params;
      assert Tables() == Tab(decl.params, t.names, [], t.functions);
      CompileInner(decl.body);
      ghost var b := GenInner(decl.body, 0, Tab(decl.params, t.names, [], t.functions));
      assert [] + b.code == b.code;
      assert Tables() == b.tab && code == b.code;
      if decl.body.tail.Some? {
        Emit(Leave);
      } else if code == [] || code[|code|-1] != RETURN {
        Emit(PushNull);
        Emit(Leave);
        Join2(b.code, Encode(PushNull), Encode(Leave));
      }
      assert b.code + [] == b.code;
      assert code == GenFunction(decl, t).code;
      functions := functions[decl.name := FnChunk(Chunk(code, constants), decl.params)];
      code, constants, locals := savedCode, savedConstants, savedLocals;
    }

    method Compile(p: Program)
      requires code == [] && Tables() == Tab([], [], [], map[])
      modifies this`code, this`constants, this`names, this`functions, this`locals
      ensures code == GenProgram(p).code && Tables() == GenProgram(p).tab
    {
      hide GenStmts, Encode;
      CompileStmts(p);
      Emit(Stop);
    }
  }

  // ---- reassembling the code ----

  function Patched(code: seq<nat>, hole: nat, v: nat): seq<nat>
    requires hole + 1 < |code|
  {
    code[hole := v / 256 % 256][hole + 1 := v % 256]
  }

  lemma Join2(before: seq<nat>, a: seq<nat>, b: seq<nat>)
    ensures before + a + b == before + (a + b)
  {
  }

  lemma Join3(before: seq<nat>, a: seq<nat>, b: seq<nat>, c: seq<nat>)
    ensures before + a + b + c == before + (a + b + c)
    ensures c == [] ==> before + a + b == before + (a + b + c)
  {
  }

  lemma FirstAt(pool: seq<string>, s: string, i: nat)
    requires i < |pool| && pool[i] == s && s !in pool[..i]
    ensures IndexOf(pool, s) == Some(i)
  {
    var j := IndexOf(pool, s).value;
    forall x | 0 <= x < i ensures pool[x] != s { assert pool[..i][x] == pool[x]; }
    forall x | 0 <= x < j ensures pool[x] != s { assert pool[..j][x] == pool[x]; }
  }

  lemma LastAt(pool: seq<string>, s: string, i: nat)
    requires i < |pool| && pool[i] == s && s !in pool[i + 1..]
    ensures SlotOf(pool, s) == Some(i)
  {
    var j := SlotOf(pool, s).value;
    forall x | i < x < |pool| ensures pool[x] != s { assert pool[i + 1..][x - i - 1] == pool[x]; }
    forall x | j < x < |pool| ensures pool[x] != s { assert pool[j + 1..][x - j - 1] == pool[x]; }
  }

  // ---- patching ----

  // Filling the hole of a jump at address `p` gives the jump to `v`.
  lemma PatchJump(pre: seq<nat>, op: Op, op': Op, post: seq<nat>, v: nat)
    requires (op == Jump(0) && op' == Jump(v)) || (op == JumpIfFalse(0) && op' == JumpIfFalse(v))
    ensures Patched(pre + Encode(op) + post, |pre| + 1, v) == pre + Encode(op') + post
  {
    var code := pre + Encode(op) + post;
    var patched := Patched(code, |pre| + 1, v);
    forall i | 0 <= i < |code| ensures patched[i] == (pre + Encode(op') + post)[i] {
    }
  }

  lemma PatchElse(before: seq<nat>, a: seq<nat>)
    ensures var code := before + Encode(JumpIfFalse(0)) + a + Encode(Jump(0));
      Patched(code, |before| + 1, |code|) == before + Encode(JumpIfFalse(|code|)) + a + Encode(Jump(0))
  {
    hide Encode;
    var code := before + Encode(JumpIfFalse(0)) + a + Encode(Jump(0));
    assert code == before + Encode(JumpIfFalse(0)) + (a + Encode(Jump(0)));
    PatchJump(before, JumpIfFalse(0), JumpIfFalse(|code|), a + Encode(Jump(0)), |code|);
  }

  lemma PatchEnd(before: seq<nat>, x: seq<nat>, late: nat, a: seq<nat>, b: seq<nat>)
    ensures var code := before + x + Encode(JumpIfFalse(late)) + a + Encode(Jump(0)) + b;
      Patched(code, |before + x + Encode(JumpIfFalse(late)) + a| + 1, |code|)
        == before + (x + Encode(JumpIfFalse(late)) + a + Encode(Jump(|code|)) + b)
  {
    hide Encode;
    var code := before + x + Encode(JumpIfFalse(late)) + a + Encode(Jump(0)) + b;
    PatchJump(before + x + Encode(JumpIfFalse(late)) + a, Jump(0), Jump(|code|), b, |code|);
  }

  lemma PatchExit(before: seq<nat>, x: seq<nat>, b: seq<nat>, start: nat)
    ensures var code := before + x + Encode(JumpIfFalse(0)) + b + Encode(Jump(start));
      Patched(code, |before + x| + 1, |code|) == before + (x + Encode(JumpIfFalse(|code|)) + b + Encode(Jump(start)))
  {
    hide Encode;
    var code := before + x + Encode(JumpIfFalse(0)) + b + Encode(Jump(start));
    assert code == (before + x) + Encode(JumpIfFalse(0)) + (b + Encode(Jump(start)));
    PatchJump(before + x, JumpIfFalse(0), JumpIfFalse(|code|), b + Encode(Jump(start)), |code|);
  }
}
