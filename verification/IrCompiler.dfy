// The AST -> IR compiler as the source writes it (src/compiler/compile.rs): one
// object whose tables, instruction list, loop stack and depth counter every
// method updates.  Each method is proved to emit what IrCodegen specifies.
module IrCompiler {
  import opened Wrappers
  import opened Syntax
  import opened Values
  import opened Semantics
  import opened IrMachine
  import opened IrCodegen
  import opened Pools
  import opened IrLink
  import opened IrStray
  import opened IrReuse

  // Absolute nesting depths of the block and the loop of a source loop.
  datatype LoopContext = LoopContext(breakDepth: nat, continueDepth: nat)

  function SaturatingSub(a: nat, b: nat): nat {
    if a < b then 0 else a - b
  }

  // The loop's block encloses its loop, and both are still open.
  predicate Nested(loops: seq<LoopContext>, depth: nat) {
    loops != [] ==>
      var top := loops[|loops|-1];
      top.breakDepth + 1 == top.continueDepth <= depth
  }

  function RelativeLabel(loops: seq<LoopContext>, depth: nat): Option<nat>
    requires Nested(loops, depth)
  {
    if loops == [] then None else Some(depth - loops[|loops|-1].continueDepth)
  }

  // The hash index is the position map of the pool.
  ghost predicate Indexes(pool: seq<string>, index: map<string, nat>) {
    && (forall s :: s in index <==> s in pool)
    && (forall s | s in index :: IndexOf(pool, s) == Some(index[s]))
  }

  class Compiler {
    // the module being built
    var functions: seq<Function>
    var strings: seq<string>
    var stringIndex: map<string, nat>
    var globals: seq<string>
    var globalVars: map<string, nat>
    var fnIndex: map<string, nat>
    // the function being built
    var instructions: seq<Instr>
    var locals: seq<string>
    var scopeStack: seq<Slots>
    // control context
    var loopStack: seq<LoopContext>
    var blockDepth: nat
    var inTopLevel: bool

    ghost function Tables(): Env
      reads this`scopeStack, this`locals, this`strings, this`globals
    {
      Env(scopeStack, locals, strings, globals)
    }

    ghost function CurrentUnit(): Unit
      reads this`fnIndex, this`inTopLevel
    {
      Unit(fnIndex, inTopLevel)
    }

    // The relative label of the innermost loop.
    ghost function LoopLabel(): Option<nat>
      reads this`loopStack, this`blockDepth
      requires Nested(loopStack, blockDepth)
    {
      RelativeLabel(loopStack, blockDepth)
    }

    ghost predicate TablesValid()
      reads this`strings, this`stringIndex, this`globals, this`globalVars
    {
      Indexes(strings, stringIndex) && Indexes(globals, globalVars)
    }

    ghost predicate Valid()
      reads this`loopStack, this`blockDepth, this`strings, this`stringIndex, this`globals, this`globalVars, this`scopeStack
    {
      Nested(loopStack, blockDepth) && TablesValid() && scopeStack != []
    }

    constructor ()
      ensures TablesValid() && functions == [] && strings == [] && globals == [] && fnIndex == map[]
      ensures loopStack == [] && blockDepth == 0 && !inTopLevel && scopeStack == []
    {
      functions, strings, stringIndex, globals, globalVars, fnIndex := [], [], map[], [], map[], map[];
      instructions, locals, scopeStack := [], [], [];
      loopStack, blockDepth, inTopLevel := [], 0, false;
    }

    // ---- tables ----

    method InternString(s: string) returns (idx: nat)
      requires TablesValid()
      modifies this`strings, this`stringIndex
      ensures TablesValid()
      ensures strings == Interned(old(strings), s) && idx == InternIndex(old(strings), s)
    {
      if s in stringIndex {
        return stringIndex[s];
      }
      idx := |strings|;
      AppendIndex(strings, s);
      stringIndex := stringIndex[s := idx];
      strings := strings + [s];
    }

    method DefineGlobal(name: string) returns (idx: nat)
      modifies this`globals, this`globalVars
      ensures Globals(globals, globalVars) == Registered(old(Globals(globals, globalVars)), name)
      ensures name in globalVars && idx == globalVars[name]
      ensures old(TablesValid()) ==>
        TablesValid() && globals == Interned(old(globals), name) && idx == InternIndex(old(globals), name)
    {
      if name in globalVars {
        return globalVars[name];
      }
      idx := |globals|;
      if name !in globals { AppendIndex(globals, name); }
      globals := globals + [name];
      globalVars := globalVars[name := idx];
    }

    method DefineLocal(name: string) returns (idx: nat)
      requires scopeStack != []
      modifies this`locals, this`scopeStack
      ensures Tables() == Define(old(Tables()), name) && idx == |old(locals)|
    {
      idx := |locals|;
      locals := locals + [name];
      var top := |scopeStack| - 1;
      var scope: Slots := scopeStack[top][name := idx];
      scopeStack := scopeStack[top := scope];
    }

    // Innermost scope first, as the reverse iteration of the source.
    method ResolveLocal(name: string) returns (r: Option<nat>)
      ensures r == match Innermost(scopeStack, name)
                   case Some(i) => Some(scopeStack[i][name])
                   case None => None
    {
      var i := |scopeStack|;
      while i > 0
        invariant 0 <= i <= |scopeStack|
        invariant forall j :: i <= j < |scopeStack| ==> name !in scopeStack[j]
      {
        i := i - 1;
        if name in scopeStack[i] {
          return Some(scopeStack[i][name]);
        }
      }
      return None;
    }

    method EnsureTempLocal() returns (idx: nat)
      requires scopeStack != []
      modifies this`locals, this`scopeStack
      ensures Tables() == WithTemp(old(Tables())) && idx == TempSlot(Tables())
    {
      var found := ResolveLocal(TEMP);
      if found.Some? {
        return found.value;
      }
      idx := DefineLocal(TEMP);
    }

    method PushScope()
      modifies this`scopeStack
      ensures scopeStack == old(scopeStack) + [map[]]
    {
      scopeStack := scopeStack + [map[]];
    }

    method PopScope()
      requires scopeStack != []
      modifies this`scopeStack
      ensures scopeStack == old(scopeStack)[..|old(scopeStack)|-1]
    {
      scopeStack := scopeStack[..|scopeStack|-1];
    }

    // ---- emission ----

    method Emit(i: Instr)
      modifies this`instructions, this`blockDepth
      ensures instructions == old(instructions) + [i]
      ensures blockDepth == if Opens(i) then old(blockDepth) + 1
                            else if i.End? then SaturatingSub(old(blockDepth), 1) else old(blockDepth)
    {
      if Opens(i) {
        blockDepth := blockDepth + 1;
      } else if i.End? {
        blockDepth := SaturatingSub(blockDepth, 1);
      }
      instructions := instructions + [i];
    }

    // ---- expressions ----

    // The outcome of a compile method: what `out` says was appended and recorded.
    twostate predicate Emits(new out: Option<Emitted>)
      reads this
    {
      && out.Some? && Valid()
      && instructions == old(instructions) + out.value.code && Tables() == out.value.env
      && blockDepth == old(blockDepth) && loopStack == old(loopStack)
    }

    method CompileExpr(e: Expr) returns (ok: bool)
      requires Valid()
      modifies this`instructions, this`blockDepth, this`loopStack, this`locals, this`scopeStack,
               this`strings, this`stringIndex, this`globals, this`globalVars
      ensures ok ==> Emits(GenExpr(CurrentUnit(), e, old(LoopLabel()), old(Tables())))
      ensures !ok ==> GenExpr(CurrentUnit(), e, old(LoopLabel()), old(Tables())).None?
      decreases e, 2
    {
      hide Nested, Indexes, RelativeLabel;
      match e
      case Lit(v) =>
        CompileLiteral(v);
        return true;
      case Var(name) =>
        CompileVariable(name);
        return true;
      case Bin(op, _, _) =>
        if op.And? || op.Or? {
          ok := CompileLogical(e);
        } else {
          ok := CompileBinary(e);
        }
      case Un(uop, operand) =>
        ok := CompileExpr(operand);
        if ok {
          Emit(if uop.Not? then BoolNot else I64Neg);
        }
      case Call(_, _) =>
        ok := CompileCall(e);
      case If(_, _, _) =>
        ok := CompileIf(e);
      case BlockExpr(block) =>
        ok := CompileBlock(block);
      case Coalesce(_, _) =>
        ok := CompileCoalesce(e);
      case Loop(body) =>
        ok := CompileInfiniteLoop(e);
    }

    method CompileLiteral(v: Value)
      requires Valid()
      modifies this`instructions, this`blockDepth, this`strings, this`stringIndex
      ensures Emits(Some(GenLit(v, old(Tables()))))
    {
      hide Nested, Indexes, RelativeLabel;
      match v
      case Null => Emit(PushNull);
      case Bool(b) => Emit(PushBool(b));
      case Int(n) => Emit(PushI64(n));
      case Str(s) =>
        var idx := InternString(s);
        Emit(PushString(idx));
    }

    method LookupGlobal(name: string) returns (r: Option<nat>)
      requires TablesValid()
      ensures r == IndexOf(globals, name)
    {
      return if name in globalVars then Some(globalVars[name]) else None;
    }

    method CompileVariable(name: string)
      requires Valid()
      modifies this`instructions, this`blockDepth, this`globals, this`globalVars
      ensures Emits(Some(GenRead(CurrentUnit(), name, old(Tables()))))
    {
      hide Nested, Indexes, RelativeLabel;
      var local := ResolveLocal(name);
      var global := LookupGlobal(name);
      if local.Some? {
        Emit(LocalGet(local.value));
      } else if global.Some? {
        Emit(GlobalGet(global.value));
      } else if name in fnIndex {
        Emit(PushI64(fnIndex[name]));
      } else {
        var g := DefineGlobal(name);
        Emit(GlobalGet(g));
      }
    }

    method CompileBinop(op: BinOp)
      requires Valid()
      modifies this`instructions, this`blockDepth, this`strings, this`stringIndex
      ensures Emits(Some(GenOp(op, old(Tables()))))
    {
      hide Nested, Indexes, RelativeLabel;
      var idx := InternString(OpName(op));
      Emit(RuntimeCall(idx, 2));
    }

    method CompileBinary(e: Expr) returns (ok: bool)
      requires Valid() && e.Bin? && !e.op.And? && !e.op.Or?
      modifies this`instructions, this`blockDepth, this`loopStack, this`locals, this`scopeStack,
               this`strings, this`stringIndex, this`globals, this`globalVars
      ensures ok ==> Emits(GenExpr(CurrentUnit(), e, old(LoopLabel()), old(Tables())))
      ensures !ok ==> GenExpr(CurrentUnit(), e, old(LoopLabel()), old(Tables())).None?
      decreases e, 1
    {
      hide Nested, Indexes, RelativeLabel, GenExpr, GenArgs, GenBlock, GenBody, GenStmts, GenStmt, WithTemp, TempSlot, ShortCircuit, SkipTest, IfElse, InLoop, NullTest, Grows, Visible, Good;
      ghost var u, k, env := CurrentUnit(), LoopLabel(), Tables();
      ghost var before := instructions;

      BinaryGen(u, e, k, env);
      ok := CompileExpr(e.left);
      if !ok { return; }
      ghost var l := GenExpr(u, e.left, k, env).value;
      ok := CompileExpr(e.right);
      if !ok { return; }
      ghost var r := GenExpr(u, e.right, k, l.env).value;
      CompileBinop(e.op);
      Join3(before, l.code, r.code, GenOp(e.op, r.env).code);
    }

    method CompileLogical(e: Expr) returns (ok: bool)
      requires Valid() && e.Bin? && (e.op.And? || e.op.Or?)
      modifies this`instructions, this`blockDepth, this`loopStack, this`locals, this`scopeStack,
               this`strings, this`stringIndex, this`globals, this`globalVars
      ensures ok ==> Emits(GenExpr(CurrentUnit(), e, old(LoopLabel()), old(Tables())))
      ensures !ok ==> GenExpr(CurrentUnit(), e, old(LoopLabel()), old(Tables())).None?
      decreases e, 1
    {
      hide Nested, Indexes, RelativeLabel, GenExpr, GenArgs, GenBlock, GenBody, GenStmts, GenStmt, WithTemp, TempSlot, ShortCircuit, SkipTest, IfElse, InLoop, NullTest, Grows, Visible, Good;
      ghost var u, k, env := CurrentUnit(), LoopLabel(), Tables();
      ghost var before := instructions;

      LogicalGen(u, e, k, env);
      ok := CompileExpr(e.left);
      if !ok { return; }
      ghost var l := GenExpr(u, e.left, k, env).value;
      var temp := EnsureTempLocal();
      OpenShortCircuit(e.op, temp);
      Deepen(loopStack, blockDepth - 2, 2);
      ghost var mid := Tables();
      ok := CompileExpr(e.right);
      if !ok { return; }
      ghost var r := GenExpr(u, e.right, Deeper(k, 2), mid).value;
      CloseShortCircuit(temp);
      LogicalCode(before, l.code, e.op, temp, r.code);
    }

    method OpenShortCircuit(op: BinOp, temp: nat)
      requires op.And? || op.Or?
      modifies this`instructions, this`blockDepth
      ensures instructions == old(instructions) + ([LocalSet(temp), OpenBlock, OpenBlock, LocalGet(temp)] + SkipTest(op))
      ensures blockDepth == old(blockDepth) + 2
    {
      Emit(LocalSet(temp));
      Emit(OpenBlock);
      Emit(OpenBlock);
      Emit(LocalGet(temp));
      if op.And? {
        Emit(BoolNot);
      }
      Emit(BrIf(0));
    }

    method CloseShortCircuit(temp: nat)
      requires blockDepth >= 2
      modifies this`instructions, this`blockDepth
      ensures instructions == old(instructions) + [LocalSet(temp), End, End, LocalGet(temp)]
      ensures blockDepth == old(blockDepth) - 2
    {
      Emit(LocalSet(temp));
      Emit(End);
      Emit(End);
      Emit(LocalGet(temp));
    }

    method CompileCall(e: Expr) returns (ok: bool)
      requires Valid() && e.Call?
      modifies this`instructions, this`blockDepth, this`loopStack, this`locals, this`scopeStack,
               this`strings, this`stringIndex, this`globals, this`globalVars
      ensures ok ==> Emits(GenExpr(CurrentUnit(), e, old(LoopLabel()), old(Tables())))
      ensures !ok ==> GenExpr(CurrentUnit(), e, old(LoopLabel()), old(Tables())).None?
      decreases e, 1
    {
      hide Nested, Indexes, RelativeLabel, GenExpr, GenArgs, GenBlock, GenBody, GenStmts, GenStmt, WithTemp, TempSlot, ShortCircuit, SkipTest, IfElse, InLoop, NullTest, Grows, Visible, Good;
      ghost var u, k, env := CurrentUnit(), LoopLabel(), Tables();
      ghost var before := instructions;

      CallGen(u, e, k, env);
      ok := CompileArgs(e.args);
      if !ok { return; }
      ghost var a := GenArgs(u, e.args, k, env).value;
      CompileCallee(e.fn, |e.args|);
      Join2(before, a.code, GenCallee(u, e.fn, |e.args|, a.env).code);
    }

    // The arguments of a call, left to right.
    method CompileArgs(args: seq<Expr>) returns (ok: bool)
      requires Valid()
      modifies this`instructions, this`blockDepth, this`loopStack, this`locals, this`scopeStack,
               this`strings, this`stringIndex, this`globals, this`globalVars
      ensures ok ==> Emits(GenArgs(CurrentUnit(), args, old(LoopLabel()), old(Tables())))
      ensures !ok ==> GenArgs(CurrentUnit(), args, old(LoopLabel()), old(Tables())).None?
      decreases args, 0
    {
      hide Nested, Indexes, RelativeLabel, GenExpr, GenArgs, GenBlock, GenBody, GenStmts, GenStmt, WithTemp, TempSlot, ShortCircuit, SkipTest, IfElse, InLoop, NullTest, Grows, Visible, Good;
      ghost var u, k, env := CurrentUnit(), LoopLabel(), Tables();
      ghost var before := instructions;

      ghost var done: seq<Instr> := [];
      var i := 0;
      assert args[0..] == args;
      PrefixNone(GenArgs(u, args, k, env));
      while i < |args|
        invariant 0 <= i <= |args| && Valid() && CurrentUnit() == u
        invariant blockDepth == old(blockDepth) && loopStack == old(loopStack)
        invariant instructions == before + done
        invariant GenArgs(u, args, k, env) == Prefixed(done, GenArgs(u, args[i..], k, Tables()))
      {
        ArgsGen(u, args[i..], k, Tables());
        ghost var now := Tables();
        ok := CompileExpr(args[i]);
        if !ok { return; }
        ghost var x := GenExpr(u, args[i], k, now).value;
        Join2(before, done, x.code);
        PrefixMore(done, x.code, GenArgs(u, args[i + 1..], k, x.env));
        done := done + x.code;
        assert args[i..][1..] == args[i + 1..];
        i := i + 1;
      }
      ArgsGen(u, args[i..], k, Tables());
      return true;
    }

    // A call through a value that is read first.
    method CallThrough(read: Instr, argc: nat)
      requires read.LocalGet? || read.GlobalGet?
      modifies this`instructions, this`blockDepth
      ensures instructions == old(instructions) + [read, InvokeIndirect(argc)] && blockDepth == old(blockDepth)
    {
      Emit(read);
      Emit(InvokeIndirect(argc));
    }

    method CompileCallee(fn: string, argc: nat)
      requires Valid()
      modifies this`instructions, this`blockDepth, this`strings, this`stringIndex
      ensures Emits(Some(GenCallee(CurrentUnit(), fn, argc, old(Tables()))))
    {
      hide Nested, Indexes, RelativeLabel, Grows, Visible, Good, LoopLabel;
      if fn in fnIndex {
        Emit(Invoke(fnIndex[fn]));
        return;
      }
      var local := ResolveLocal(fn);
      var global := LookupGlobal(fn);
      if local.Some? {
        CallThrough(LocalGet(local.value), argc);
      } else if global.Some? {
        CallThrough(GlobalGet(global.value), argc);
      } else {
        var idx := InternString(fn);
        Emit(RuntimeCall(idx, argc));
      }
    }

    method CompileIf(e: Expr) returns (ok: bool)
      requires Valid() && e.If?
      modifies this`instructions, this`blockDepth, this`loopStack, this`locals, this`scopeStack,
               this`strings, this`stringIndex, this`globals, this`globalVars
      ensures ok ==> Emits(GenExpr(CurrentUnit(), e, old(LoopLabel()), old(Tables())))
      ensures !ok ==> GenExpr(CurrentUnit(), e, old(LoopLabel()), old(Tables())).None?
      decreases e, 1
    {
      hide Nested, Indexes, RelativeLabel, GenExpr, GenArgs, GenBlock, GenBody, GenStmts, GenStmt, WithTemp, TempSlot, ShortCircuit, SkipTest, IfElse, InLoop, NullTest, Grows, Visible, Good;
      ghost var u, k, env := CurrentUnit(), LoopLabel(), Tables();
      ghost var before := instructions;

      IfGen(u, e, k, env);
      ok := CompileExpr(e.cond);
      if !ok { return; }
      ghost var x := GenExpr(u, e.cond, k, env).value;
      ok := CompileArms(e);
      if !ok { return; }
      Join2(before, x.code, GenArms(u, e.thn, e.els, Deeper(k, 1), x.env).value.code);
    }

    // Both branches, from the opening of the conditional to its end.
    method CompileArms(e: Expr) returns (ok: bool)
      requires Valid() && e.If?
      modifies this`instructions, this`blockDepth, this`loopStack, this`locals, this`scopeStack,
               this`strings, this`stringIndex, this`globals, this`globalVars
      ensures ok ==> Emits(GenArms(CurrentUnit(), e.thn, e.els, Deeper(old(LoopLabel()), 1), old(Tables())))
      ensures !ok ==> GenArms(CurrentUnit(), e.thn, e.els, Deeper(old(LoopLabel()), 1), old(Tables())).None?
      decreases e, 0
    {
      hide Nested, Indexes, RelativeLabel, GenExpr, GenArgs, GenBlock, GenBody, GenStmts, GenStmt, WithTemp, TempSlot, ShortCircuit, SkipTest, IfElse, InLoop, NullTest, Grows, Visible, Good;
      ghost var u, k, env := CurrentUnit(), LoopLabel(), Tables();
      ghost var before := instructions;
      Emit(OpenIf);
      Deepen(loopStack, blockDepth - 1, 1);
      ok := CompileBlock(e.thn);
      if !ok { return; }
      ghost var t := GenBlock(u, e.thn, Deeper(k, 1), env).value;
      Emit(Else);
      ok := CompileElse(e.els);
      if !ok { return; }
      ghost var f := GenElse(u, e.els, Deeper(k, 1), t.env).value;
      Emit(End);
      IfCode(before, t.code, f.code);
    }

    method CompileElse(els: Option<Block>) returns (ok: bool)
      requires Valid()
      modifies this`instructions, this`blockDepth, this`loopStack, this`locals, this`scopeStack,
               this`strings, this`stringIndex, this`globals, this`globalVars
      ensures ok ==> Emits(GenElse(CurrentUnit(), els, old(LoopLabel()), old(Tables())))
      ensures !ok ==> GenElse(CurrentUnit(), els, old(LoopLabel()), old(Tables())).None?
      decreases els, 1
    {
      hide Nested, Indexes, RelativeLabel, GenBlock;
      if els.Some? {
        ok := CompileBlock(els.value);
      } else {
        Emit(PushNull);
        return true;
      }
    }

    method CompileCoalesce(e: Expr) returns (ok: bool)
      requires Valid() && e.Coalesce?
      modifies this`instructions, this`blockDepth, this`loopStack, this`locals, this`scopeStack,
               this`strings, this`stringIndex, this`globals, this`globalVars
      ensures ok ==> Emits(GenExpr(CurrentUnit(), e, old(LoopLabel()), old(Tables())))
      ensures !ok ==> GenExpr(CurrentUnit(), e, old(LoopLabel()), old(Tables())).None?
      decreases e, 1
    {
      hide Nested, Indexes, RelativeLabel, GenExpr, GenArgs, GenBlock, GenBody, GenStmts, GenStmt, WithTemp, TempSlot, ShortCircuit, SkipTest, IfElse, InLoop, NullTest, Grows, Visible, Good;
      ghost var u, k, env := CurrentUnit(), LoopLabel(), Tables();
      ghost var before := instructions;

      CoalesceGen(u, e, k, env);
      ok := CompileExpr(e.first);
      if !ok { return; }
      ghost var l := GenExpr(u, e.first, k, env).value;
      var temp := EnsureTempLocal();
      EmitNullTest(temp);
      Deepen(loopStack, blockDepth - 1, 1);
      ghost var mid := Tables();
      ok := CompileExpr(e.default);
      if !ok { return; }
      ghost var r := GenExpr(u, e.default, Deeper(k, 1), mid).value;
      EmitReload(temp);
      CoalesceCode(before, l.code, temp, r.code);
    }

    method EmitNullTest(temp: nat)
      modifies this`instructions, this`blockDepth
      ensures instructions == old(instructions) + (NullTest(temp) + [OpenIf])
      ensures blockDepth == old(blockDepth) + 1
    {
      Emit(LocalSet(temp));
      Emit(LocalGet(temp));
      Emit(GetTag);
      Emit(PushI64(0));
      Emit(I64Eq);
      Emit(OpenIf);
    }

    method EmitReload(temp: nat)
      requires blockDepth >= 1
      modifies this`instructions, this`blockDepth
      ensures instructions == old(instructions) + [Else, LocalGet(temp), End] && blockDepth == old(blockDepth) - 1
    {
      Emit(Else);
      Emit(LocalGet(temp));
      Emit(End);
    }

    // ---- loops ----

    // Opens the block that `break` leaves and the loop that `continue` restarts.
    method OpenLoopContext()
      modifies this`instructions, this`blockDepth, this`loopStack
      ensures instructions == old(instructions) + [OpenBlock, OpenLoop] && blockDepth == old(blockDepth) + 2
      ensures blockDepth >= 2 && loopStack == old(loopStack) + [LoopContext(blockDepth - 1, blockDepth)]
      ensures Nested(loopStack, blockDepth) && RelativeLabel(loopStack, blockDepth) == Some(0)
    {
      Emit(OpenBlock);
      var breakDepth := blockDepth;
      Emit(OpenLoop);
      var continueDepth := blockDepth;
      loopStack := loopStack + [LoopContext(breakDepth, continueDepth)];
    }

    method CloseLoopContext()
      requires loopStack != [] && blockDepth >= 2
      modifies this`instructions, this`blockDepth, this`loopStack
      ensures instructions == old(instructions) + [End, End] && blockDepth == old(blockDepth) - 2
      ensures loopStack == old(loopStack)[..|old(loopStack)|-1]
    {
      Emit(End);
      Emit(End);
      loopStack := loopStack[..|loopStack|-1];
    }

    // Leaves the innermost loop when the condition on the stack is false.
    method EmitExitTest()
      requires blockDepth > 0 && loopStack != [] && loopStack[|loopStack|-1] == LoopContext(blockDepth - 1, blockDepth)
      modifies this`instructions, this`blockDepth
      ensures instructions == old(instructions) + [BoolNot, BrIf(1)] && blockDepth == old(blockDepth)
    {
      Emit(BoolNot);
      Emit(BrIf(SaturatingSub(blockDepth, loopStack[|loopStack|-1].breakDepth)));
    }

    method EmitContinue()
      requires loopStack != [] && loopStack[|loopStack|-1].continueDepth == blockDepth
      modifies this`instructions, this`blockDepth
      ensures instructions == old(instructions) + [Br(0)] && blockDepth == old(blockDepth)
    {
      Emit(Br(SaturatingSub(blockDepth, loopStack[|loopStack|-1].continueDepth)));
    }

    method CompileInfiniteLoop(e: Expr) returns (ok: bool)
      requires Valid() && e.Loop?
      modifies this`instructions, this`blockDepth, this`loopStack, this`locals, this`scopeStack,
               this`strings, this`stringIndex, this`globals, this`globalVars
      ensures ok ==> Emits(GenExpr(CurrentUnit(), e, old(LoopLabel()), old(Tables())))
      ensures !ok ==> GenExpr(CurrentUnit(), e, old(LoopLabel()), old(Tables())).None?
      decreases e, 1
    {
      hide Nested, Indexes, RelativeLabel, GenExpr, GenArgs, GenBlock, GenBody, GenStmts, GenStmt, WithTemp, TempSlot, ShortCircuit, SkipTest, IfElse, InLoop, NullTest, Grows, Visible, Good;
      ghost var u, k, env := CurrentUnit(), LoopLabel(), Tables();
      ghost var before := instructions;

      LoopGen(u, e, k, env);
      OpenLoopContext();
      ok := CompileBlock(e.body);
      if !ok { return; }
      ghost var b := GenBlock(u, e.body, Some(0), env).value;
      Emit(Drop);
      EmitContinue();
      CloseLoopContext();
      Emit(PushNull);
      LoopCode(before, b.code);
    }

    method CompileWhileLoop(st: Stmt) returns (ok: bool)
      requires Valid() && st.While?
      modifies this`instructions, this`blockDepth, this`loopStack, this`locals, this`scopeStack,
               this`strings, this`stringIndex, this`globals, this`globalVars
      ensures ok ==> Emits(GenStmt(CurrentUnit(), st, old(LoopLabel()), old(Tables())))
      ensures !ok ==> GenStmt(CurrentUnit(), st, old(LoopLabel()), old(Tables())).None?
      decreases st, 1
    {
      hide Nested, Indexes, RelativeLabel, GenExpr, GenArgs, GenBlock, GenBody, GenStmts, GenStmt, WithTemp, TempSlot, ShortCircuit, SkipTest, IfElse, InLoop, NullTest, Grows, Visible, Good;
      ghost var u, k, env := CurrentUnit(), LoopLabel(), Tables();
      ghost var before := instructions;

      WhileGen(u, st, k, env);
      OpenLoopContext();
      ok := CompileExpr(st.cond);
      if !ok { return; }
      ghost var x := GenExpr(u, st.cond, Some(0), env).value;
      EmitExitTest();
      ok := CompileBody(st.body);
      if !ok { return; }
      ghost var b := GenBody(u, st.body, Some(0), x.env).value;
      EmitContinue();
      CloseLoopContext();
      WhileCode(before, x.code, b.code);
    }

    method CompileDoWhile(st: Stmt) returns (ok: bool)
      requires Valid() && st.DoWhile?
      modifies this`instructions, this`blockDepth, this`loopStack, this`locals, this`scopeStack,
               this`strings, this`stringIndex, this`globals, this`globalVars
      ensures ok ==> Emits(GenStmt(CurrentUnit(), st, old(LoopLabel()), old(Tables())))
      ensures !ok ==> GenStmt(CurrentUnit(), st, old(LoopLabel()), old(Tables())).None?
      decreases st, 1
    {
      hide Nested, Indexes, RelativeLabel, GenExpr, GenArgs, GenBlock, GenBody, GenStmts, GenStmt, WithTemp, TempSlot, ShortCircuit, SkipTest, IfElse, InLoop, NullTest, Grows, Visible, Good;
      ghost var u, k, env := CurrentUnit(), LoopLabel(), Tables();
      ghost var before := instructions;

      DoWhileGen(u, st, k, env);
      OpenLoopContext();
      ok := CompileBody(st.body);
      if !ok { return; }
      ghost var b := GenBody(u, st.body, Some(0), env).value;
      ok := CompileExpr(st.cond);
      if !ok { return; }
      ghost var x := GenExpr(u, st.cond, Some(0), b.env).value;
      EmitExitTest();
      EmitContinue();
      CloseLoopContext();
      DoWhileCode(before, b.code, x.code);
    }

    // ---- blocks and statements ----

    method CompileBlock(b: Block) returns (ok: bool)
      requires Valid()
      modifies this`instructions, this`blockDepth, this`loopStack, this`locals, this`scopeStack,
               this`strings, this`stringIndex, this`globals, this`globalVars
      ensures ok ==> Emits(GenBlock(CurrentUnit(), b, old(LoopLabel()), old(Tables())))
      ensures !ok ==> GenBlock(CurrentUnit(), b, old(LoopLabel()), old(Tables())).None?
      decreases b, 1
    {
      hide Nested, Indexes, RelativeLabel, GenExpr, GenArgs, GenBlock, GenBody, GenStmts, GenStmt, WithTemp, TempSlot, ShortCircuit, SkipTest, IfElse, InLoop, NullTest, Visible, Good;
      ghost var u, k, env := CurrentUnit(), LoopLabel(), Tables();
      ghost var before := instructions;

      BlockGen(u, b, k, env);
      PushScope();
      ok := CompileStatements(b.stmts);
      if !ok { return; }
      ghost var ss := GenStmts(u, b.stmts, k, Enter(env)).value;
      if b.tail.Some? {
        ok := CompileExpr(b.tail.value);
        if !ok { return; }
        Join2(before, ss.code, GenExpr(u, b.tail.value, k, ss.env).value.code);
      } else {
        Emit(PushNull);
        Join2(before, ss.code, [PushNull]);
      }
      PopScope();
    }

    // A loop body: like a block, but a tail value is dropped and none is supplied.
    method CompileBody(b: Block) returns (ok: bool)
      requires Valid()
      modifies this`instructions, this`blockDepth, this`loopStack, this`locals, this`scopeStack,
               this`strings, this`stringIndex, this`globals, this`globalVars
      ensures ok ==> Emits(GenBody(CurrentUnit(), b, old(LoopLabel()), old(Tables())))
      ensures !ok ==> GenBody(CurrentUnit(), b, old(LoopLabel()), old(Tables())).None?
      decreases b, 1
    {
      hide Nested, Indexes, RelativeLabel, GenExpr, GenArgs, GenBlock, GenBody, GenStmts, GenStmt, WithTemp, TempSlot, ShortCircuit, SkipTest, IfElse, InLoop, NullTest, Visible, Good;
      ghost var u, k, env := CurrentUnit(), LoopLabel(), Tables();
      ghost var before := instructions;

      BodyGen(u, b, k, env);
      PushScope();
      ok := CompileStatements(b.stmts);
      if !ok { return; }
      ghost var ss := GenStmts(u, b.stmts, k, Enter(env)).value;
      if b.tail.Some? {
        ok := CompileExpr(b.tail.value);
        if !ok { return; }
        Emit(Drop);
        Join3(before, ss.code, GenExpr(u, b.tail.value, k, ss.env).value.code, [Drop]);
      }
      PopScope();
    }

    method CompileStatements(stmts: seq<Stmt>) returns (ok: bool)
      requires Valid()
      modifies this`instructions, this`blockDepth, this`loopStack, this`locals, this`scopeStack,
               this`strings, this`stringIndex, this`globals, this`globalVars
      ensures ok ==> Emits(GenStmts(CurrentUnit(), stmts, old(LoopLabel()), old(Tables())))
      ensures !ok ==> GenStmts(CurrentUnit(), stmts, old(LoopLabel()), old(Tables())).None?
      decreases stmts, 0
    {
      hide Nested, Indexes, RelativeLabel, GenExpr, GenArgs, GenBlock, GenBody, GenStmts, GenStmt, WithTemp, TempSlot, ShortCircuit, SkipTest, IfElse, InLoop, NullTest, Grows, Visible, Good;
      ghost var u, k, env := CurrentUnit(), LoopLabel(), Tables();
      ghost var before := instructions;

      ghost var done: seq<Instr> := [];
      var i := 0;
      assert stmts[0..] == stmts;
      PrefixNone(GenStmts(u, stmts, k, env));
      while i < |stmts|
        invariant 0 <= i <= |stmts| && Valid() && CurrentUnit() == u
        invariant blockDepth == old(blockDepth) && loopStack == old(loopStack)
        invariant instructions == before + done
        invariant GenStmts(u, stmts, k, env) == Prefixed(done, GenStmts(u, stmts[i..], k, Tables()))
      {
        StmtsGen(u, stmts[i..], k, Tables());
        ghost var now := Tables();
        ok := CompileStatement(stmts[i]);
        if !ok { return; }
        ghost var x := GenStmt(u, stmts[i], k, now).value;
        Join2(before, done, x.code);
        PrefixMore(done, x.code, GenStmts(u, stmts[i + 1..], k, x.env));
        done := done + x.code;
        assert stmts[i..][1..] == stmts[i + 1..];
        i := i + 1;
      }
      StmtsGen(u, stmts[i..], k, Tables());
      return true;
    }

    method CompileStatement(st: Stmt) returns (ok: bool)
      requires Valid()
      modifies this`instructions, this`blockDepth, this`loopStack, this`locals, this`scopeStack,
               this`strings, this`stringIndex, this`globals, this`globalVars
      ensures ok ==> Emits(GenStmt(CurrentUnit(), st, old(LoopLabel()), old(Tables())))
      ensures !ok ==> GenStmt(CurrentUnit(), st, old(LoopLabel()), old(Tables())).None?
      decreases st, 2
    {
      hide Nested, Indexes, RelativeLabel, GenExpr, GenArgs, GenBlock, GenBody, GenStmts, GenStmt, WithTemp, TempSlot, ShortCircuit, SkipTest;
      SimpleGen(CurrentUnit(), st, LoopLabel(), Tables());
      match st
      case While(_, _) =>
        ok := CompileWhileLoop(st);
      case DoWhile(_, _) =>
        ok := CompileDoWhile(st);
      case Break =>
        ok := CompileJump(st);
      case Continue =>
        ok := CompileJump(st);
      case FnDef(_) =>
        return true;
      case _ =>
        ok := CompileSimple(st);
    }

    // Statements that evaluate one expression and then act on its value.
    method CompileSimple(st: Stmt) returns (ok: bool)
      requires Valid() && Simple(st)
      modifies this`instructions, this`blockDepth, this`loopStack, this`locals, this`scopeStack,
               this`strings, this`stringIndex, this`globals, this`globalVars
      ensures ok ==> Emits(GenStmt(CurrentUnit(), st, old(LoopLabel()), old(Tables())))
      ensures !ok ==> GenStmt(CurrentUnit(), st, old(LoopLabel()), old(Tables())).None?
      decreases st, 1
    {
      hide Nested, Indexes, RelativeLabel, GenExpr, GenArgs, GenBlock, GenBody, GenStmts, GenStmt, WithTemp, TempSlot, ShortCircuit, SkipTest, IfElse, InLoop, NullTest, Grows, Visible, Good;
      ghost var u, k, env := CurrentUnit(), LoopLabel(), Tables();
      ghost var before := instructions;

      SimpleGen(u, st, k, env);
      if st.Return? && st.result.None? {
        Emit(PushNull);
        Emit(Leave);
        Join2(before, [PushNull], [Leave]);
        return true;
      }
      ok := CompileExpr(Operand(st));
      if !ok { return; }
      ghost var x := GenExpr(u, Operand(st), k, env).value;
      FinishStatement(st);
      Join2(before, x.code, GenFinish(u, st, x.env).code);
    }

    method FinishStatement(st: Stmt)
      requires Valid() && Simple(st)
      modifies this`instructions, this`blockDepth, this`locals, this`scopeStack, this`globals, this`globalVars
      ensures Emits(Some(GenFinish(CurrentUnit(), st, old(Tables()))))
    {
      hide Nested, Indexes, RelativeLabel;
      match st
      case Let(name, _) => CompileBind(name);
      case Assign(name, _) => CompileStore(name);
      case Output(_) => Emit(Print);
      case ExprStmt(_) => Emit(Drop);
      case Return(_) => Emit(Leave);
      case Throw(_) =>
        Emit(Drop);
        Emit(Unreachable);
    }

    method CompileBind(name: string)
      requires Valid()
      modifies this`instructions, this`blockDepth, this`locals, this`scopeStack, this`globals, this`globalVars
      ensures Emits(Some(GenBind(CurrentUnit(), name, old(Tables()))))
    {
      hide Nested, Indexes, RelativeLabel;
      var idx := DefineLocal(name);
      if inTopLevel {
        var g := DefineGlobal(name);
        EmitShared(idx, g);
      } else {
        Emit(LocalSet(idx));
      }
    }

    // A binding at the top level is a local and a global.
    method EmitShared(idx: nat, g: nat)
      modifies this`instructions, this`blockDepth
      ensures instructions == old(instructions) + [LocalSet(idx), LocalGet(idx), GlobalSet(g)] && blockDepth == old(blockDepth)
    {
      Emit(LocalSet(idx));
      Emit(LocalGet(idx));
      Emit(GlobalSet(g));
    }

    method CompileStore(name: string)
      requires Valid()
      modifies this`instructions, this`blockDepth, this`globals, this`globalVars
      ensures Emits(Some(GenWrite(CurrentUnit(), name, old(Tables()))))
    {
      hide Nested, Indexes, RelativeLabel;
      var local := ResolveLocal(name);
      if local.Some? {
        Emit(LocalSet(local.value));
      } else {
        var g := DefineGlobal(name);
        Emit(GlobalSet(g));
      }
    }

    // ---- functions ----

    method BeginFunction()
      modifies this`instructions, this`locals, this`scopeStack, this`blockDepth
      ensures instructions == [] && blockDepth == 0 && locals == [] && scopeStack == [map[]]
    {
      instructions, locals, scopeStack, blockDepth := [], [], [map[]], 0;
    }

    // Replaces the placeholder registered under the name.
    method EndFunction(name: string, params: nat)
      requires name in fnIndex && fnIndex[name] < |functions|
      modifies this`functions
      ensures functions == old(functions)[fnIndex[name] := Function(name, params, |locals|, instructions)]
    {
      functions := functions[fnIndex[name] := Function(name, params, |locals|, instructions)];
    }

    method DefineParams(params: seq<string>)
      requires scopeStack == [map[]] && locals == []
      modifies this`locals, this`scopeStack
      ensures Tables() == ParamEnv(params, strings, globals)
    {
      var i := 0;
      while i < |params|
        invariant 0 <= i <= |params| && scopeStack == [ParamSlots(params[..i])] && locals == params[..i]
      {
        var idx := DefineLocal(params[i]);
        assert params[..i + 1][..i] == params[..i];
        i := i + 1;
      }
      assert params[..|params|] == params;
    }

    method CompileFunctionDef(decl: FnDecl) returns (ok: bool)
      requires TablesValid() && loopStack == [] && decl.name in fnIndex && fnIndex[decl.name] < |functions|
      modifies this`instructions, this`blockDepth, this`loopStack, this`locals, this`scopeStack,
               this`strings, this`stringIndex, this`globals, this`globalVars, this`functions
      ensures ok ==> TablesValid() && loopStack == []
      ensures ok ==>
        var out := GenFunction(CurrentUnit(), decl, old(strings), old(globals));
        && out.Some? && strings == out.value.env.strings && globals == out.value.env.globals
        && functions == old(functions)[fnIndex[decl.name] :=
             Function(decl.name, |decl.params|, |out.value.env.locals|, out.value.code)]
      ensures !ok ==> GenFunction(CurrentUnit(), decl, old(strings), old(globals)).None?
    {
      hide Indexes, GenBlock, ParamSlots, Grows, Visible, Good;
      BeginFunction();
      DefineParams(decl.params);
      ghost var entry := Tables();
      ok := CompileBlock(decl.body);
      if !ok { return; }
      Emit(Leave);
      assert instructions == GenBlock(CurrentUnit(), decl.body, None, entry).value.code + [Leave];
      EndFunction(decl.name, |decl.params|);
    }

    // The top-level statements, with top-level bindings copied to globals.
    method CompileTop(p: Program) returns (ok: bool)
      requires Valid() && loopStack == [] && inTopLevel && instructions == []
      modifies this`instructions, this`blockDepth, this`loopStack, this`locals, this`scopeStack,
               this`strings, this`stringIndex, this`globals, this`globalVars
      ensures ok ==> TablesValid() && loopStack == []
      ensures var out := GenTop(CurrentUnit(), p, old(Tables()));
        if ok then out == Some(Emitted(instructions, Tables())) else out.None?
    {
      hide Indexes, GenStmts, Grows, Visible, Good;
      ghost var u, env := CurrentUnit(), Tables();
      ok := CompileStatements(p);
      if !ok { return; }
      ghost var code := GenStmts(u, p, None, env).value.code;
      Emit(PushNull);
      Emit(Leave);
      TopCode(code);
    }

    method CompileMain(p: Program) returns (ok: bool)
      requires TablesValid() && loopStack == [] && globals == [] && "__main" in fnIndex && fnIndex["__main"] < |functions|
      modifies this`instructions, this`blockDepth, this`loopStack, this`locals, this`scopeStack,
               this`strings, this`stringIndex, this`globals, this`globalVars, this`functions, this`inTopLevel
      ensures ok ==> TablesValid() && loopStack == [] && !inTopLevel
      ensures ok ==>
        var out := GenMain(Unit(fnIndex, true), p, old(strings));
        && out.Some? && strings == out.value.env.strings && globals == out.value.env.globals
        && functions == old(functions)[fnIndex["__main"] := Function("__main", 0, |out.value.env.locals|, out.value.code)]
      ensures !ok ==> GenMain(Unit(fnIndex, true), p, old(strings)).None?
    {
      hide Indexes, GenStmts, GenTop, Grows, Visible, Good;
      BeginFunction();
      inTopLevel := true;
      ok := CompileTop(p);
      if !ok { return; }
      inTopLevel := false;
      EndFunction("__main", 0);
    }

    // `break` and `continue` name the block or the loop of the innermost source loop.
    method CompileJump(st: Stmt) returns (ok: bool)
      requires Valid() && (st.Break? || st.Continue?)
      modifies this`instructions, this`blockDepth
      ensures ok ==> Emits(GenStmt(CurrentUnit(), st, old(LoopLabel()), old(Tables())))
      ensures !ok ==> GenStmt(CurrentUnit(), st, old(LoopLabel()), old(Tables())).None?
    {
      hide Indexes;
      if loopStack == [] {
        return false;
      }
      var ctx := loopStack[|loopStack|-1];
      Emit(Br(SaturatingSub(blockDepth, if st.Break? then ctx.breakDepth else ctx.continueDepth)));
      return true;
    }
    // ---- the whole program ----

    method RegisterFunction(f: Function)
      requires Distinct(fnIndex, |functions|)
      modifies this`functions, this`fnIndex
      ensures functions == old(functions) + [f] && fnIndex == old(fnIndex)[f.name := |old(functions)|]
      ensures Distinct(fnIndex, |functions|)
    {
      fnIndex := fnIndex[f.name := |functions|];
      functions := functions + [f];
    }

    method RegisterLibrary(library: seq<Function>)
      requires Distinct(fnIndex, |functions|) && fnIndex == map["__main" := 0]
      modifies this`functions, this`fnIndex
      ensures Distinct(fnIndex, |functions|) && fnIndex.Keys == Builtins(library)
      ensures "__main" in fnIndex && fnIndex["__main"] == 0
      ensures LibraryKept(fnIndex, functions, library, {})
    {
      hide Distinct, Builtins, LibraryKept;
      var i := 0;
      assert fnIndex.Keys == Builtins(library[..0]) by { BuiltinsNone(library); }
      NothingKept(fnIndex, functions, library);
      while i < |library|
        invariant 0 <= i <= |library| && Distinct(fnIndex, |functions|) && "__main" in fnIndex && fnIndex["__main"] == 0
        invariant fnIndex.Keys == Builtins(library[..i])
        invariant LibraryKept(fnIndex, functions, library[..i], {})
      {
        BuiltinsMore(library, i);
        ghost var fns, before := fnIndex, functions;
        if library[i].name !in fnIndex {
          RegisterFunction(library[i]);
        }
        LibraryMore(fns, fnIndex, before, functions, library, i);
        i := i + 1;
      }
      assert library[..|library|] == library;
    }

    method RegisterProgram(p: Program, ghost library: seq<Function>)
      requires Distinct(fnIndex, |functions|) && fnIndex.Keys == Builtins(library) && "__main" in fnIndex && fnIndex["__main"] == 0
      requires LibraryKept(fnIndex, functions, library, {})
      modifies this`functions, this`fnIndex
      ensures Distinct(fnIndex, |functions|) && fnIndex.Keys == Builtins(library) + Functions(p).Keys
      ensures "__main" in fnIndex && ("__main" !in Functions(p) ==> fnIndex["__main"] == 0)
      ensures LibraryKept(fnIndex, functions, library, Functions(p).Keys)
    {
      hide Distinct, Builtins, LibraryKept;
      var i := 0;
      assert Functions(p[..0]).Keys == {};
      while i < |p|
        invariant 0 <= i <= |p| && Distinct(fnIndex, |functions|) && "__main" in fnIndex
        invariant fnIndex.Keys == Builtins(library) + Functions(p[..i]).Keys
        invariant "__main" !in Functions(p[..i]) ==> fnIndex["__main"] == 0
        invariant LibraryKept(fnIndex, functions, library, Functions(p[..i]).Keys)
      {
        assert p[..i + 1][..i] == p[..i];
        if p[i].FnDef? {
          var f := Placeholder(p[i].decl.name, |p[i].decl.params|);
          LibraryDisplaced(fnIndex, functions, library, Functions(p[..i]).Keys, f);
          assert Functions(p[..i + 1]).Keys == Functions(p[..i]).Keys + {f.name};
          RegisterFunction(f);
        }
        i := i + 1;
      }
      assert p[..|p|] == p;
    }

    // Slot 0 for the top-level code, then the built-ins, then the program's own functions.
    method RegisterFunctions(p: Program, library: seq<Function>)
      requires functions == [] && fnIndex == map[]
      modifies this`functions, this`fnIndex
      ensures Distinct(fnIndex, |functions|) && fnIndex.Keys == Builtins(library) + Functions(p).Keys
      ensures "__main" in fnIndex && ("__main" !in Functions(p) ==> fnIndex["__main"] == 0)
      ensures LibraryKept(fnIndex, functions, library, Functions(p).Keys)
    {
      hide LibraryKept, Builtins;
      RegisterFunction(Placeholder("__main", 0));
      RegisterLibrary(library);
      RegisterProgram(p, library);
    }

    // The bodies of the functions, in the order of their definitions.
    method CompileFunctions(p: Program) returns (ok: bool)
      requires TablesValid() && loopStack == [] && !inTopLevel
      requires Distinct(fnIndex, |functions|) && Functions(p).Keys <= fnIndex.Keys
      requires Linking(fnIndex, Module(functions, strings, globals), p, 0)
      modifies this`instructions, this`blockDepth, this`loopStack, this`locals, this`scopeStack,
               this`strings, this`stringIndex, this`globals, this`globalVars, this`functions
      ensures ok ==> Linking(fnIndex, Module(functions, strings, globals), p, |p|)
      ensures ok ==> OthersKept(fnIndex, old(functions), functions, Functions(p).Keys) && old(strings) <= strings
      ensures ok <==> !StrayFunctions(p)
    {
      hide Indexes, Linking, GenFunction, GenBlock, GenMain, StrayFunctions, Functions, OthersKept, Distinct;
      var i := 0;
      NoStray(p);
      NothingChanged(fnIndex, functions, Functions(p).Keys);
      while i < |p|
        invariant 0 <= i <= |p| && TablesValid() && loopStack == [] && !inTopLevel
        invariant Distinct(fnIndex, |functions|)
        invariant Linking(fnIndex, Module(functions, strings, globals), p, i)
        invariant OthersKept(fnIndex, old(functions), functions, Functions(p).Keys) && old(strings) <= strings
        invariant !StrayFunctions(p[..i])
      {
        StrayMore(p, i);
        if p[i].FnDef? {
          FunctionKnown(p, i);
          InRange(fnIndex, |functions|, p[i].decl.name);
          ghost var m0 := Module(functions, strings, globals);
          StrayFunction(CurrentUnit(), p[i].decl, strings, globals);
          FunctionStrings(CurrentUnit(), p[i].decl, strings, globals);
          ok := CompileFunctionDef(p[i].decl);
          if !ok { return; }
          LinkMore(fnIndex, m0, Module(functions, strings, globals), p, i);
          OtherChanged(fnIndex, old(functions), m0.functions, functions, Functions(p).Keys, p[i].decl.name);
        } else {
          LinkSkip(fnIndex, Module(functions, strings, globals), p, i);
        }
        i := i + 1;
      }
      assert p[..|p|] == p;
      return true;
    }

    // Everything but `globalVars` starts anew; the functions get their indices and the names theirs.
    method Prepare(p: Program, library: seq<Function>, names: seq<string>)
      requires globalVars == map[]
      modifies this
      ensures TablesValid() && globals == [] && globalVars == map[] && loopStack == [] && blockDepth == 0 && !inTopLevel
      ensures Distinct(fnIndex, |functions|) && fnIndex.Keys == Builtins(library) + Functions(p).Keys
      ensures "__main" in fnIndex && ("__main" !in Functions(p) ==> fnIndex["__main"] == 0)
      ensures LibraryKept(fnIndex, functions, library, Functions(p).Keys)
      ensures forall k: nat | k < |names| :: names[k] in strings
    {
      hide Distinct, Builtins, Functions, LibraryKept;
      functions, strings, stringIndex, globals, fnIndex := [], [], map[], [], map[];
      loopStack, blockDepth, inTopLevel := [], 0, false;
      RegisterFunctions(p, library);
      InternAll(names);
    }

    // `None` is a compile error.  Like the source, it resets everything but `globalVars`.
    method Compile(p: Program, library: seq<Function>, names: seq<string>) returns (r: Option<Module>)
      requires globalVars == map[]
      modifies this
      ensures r.Some? ==> IsCompiled(fnIndex, r.value, p, library)
      ensures r.Some? ==> LibraryKept(fnIndex, r.value.functions, library, Functions(p).Keys)
      ensures r.Some? ==> forall k: nat | k < |names| :: names[k] in r.value.strings
      ensures r.None? <==> StrayProgram(p)
    {
      hide Distinct, Builtins, GenMain, StrayFunctions, StrayStmts, Functions, LibraryKept, OthersKept, Linking, IsCompiled, MainFrom, Indexes;
      Prepare(p, library, names);
      ghost var first, registered := strings, functions;
      InRange(fnIndex, |functions|, "__main");
      StrayMain(Unit(fnIndex, true), p, strings);
      var ok := CompileMain(p);
      if !ok { return None; }
      MainLinked(fnIndex, Module(functions, strings, globals), registered, p, first);
      ghost var main, some := functions, strings;
      ok := CompileFunctions(p);
      if !ok { return None; }
      r := Some(Module(functions, strings, globals));
      LinkDone(fnIndex, r.value, p, library);
      OthersJoin(fnIndex, registered, main, functions, {"__main"}, Functions(p).Keys);
      LibraryLater(fnIndex, registered, functions, library, Functions(p).Keys, {"__main"} + Functions(p).Keys);
      assert first <= some <= strings;
      NamesStay(names, first, strings);
    }

    method InternAll(names: seq<string>)
      requires TablesValid()
      modifies this`strings, this`stringIndex
      ensures TablesValid() && forall k: nat | k < |names| :: names[k] in strings
    {
      for i := 0 to |names|
        invariant TablesValid() && forall k: nat | k < i :: names[k] in strings
      {
        ghost var before := strings;
        var idx := InternString(names[i]);
        assert before <= strings;
      }
    }
  }

  lemma NamesStay(names: seq<string>, first: seq<string>, all: seq<string>)
    requires first <= all && forall k: nat | k < |names| :: names[k] in first
    ensures forall k: nat | k < |names| :: names[k] in all
  {
  }

  // ---- the specification, one construct at a time ----

  lemma BinaryGen(u: Unit, e: Expr, k: Option<nat>, env: Env)
    requires e.Bin? && !e.op.And? && !e.op.Or? && env.scopes != []
    ensures GenExpr(u, e, k, env) ==
      match GenExpr(u, e.left, k, env)
      case None => None
      case Some(l) =>
        match GenExpr(u, e.right, k, l.env)
        case None => None
        case Some(r) => Some(Emitted(l.code + r.code + GenOp(e.op, r.env).code, GenOp(e.op, r.env).env))
  {
  }

  lemma LogicalGen(u: Unit, e: Expr, k: Option<nat>, env: Env)
    requires e.Bin? && (e.op.And? || e.op.Or?) && env.scopes != []
    ensures GenExpr(u, e, k, env) ==
      match GenExpr(u, e.left, k, env)
      case None => None
      case Some(l) =>
        var mid := WithTemp(l.env);
        var t := TempSlot(mid);
        match GenExpr(u, e.right, Deeper(k, 2), mid)
        case None => None
        case Some(r) => Some(Emitted(l.code + [LocalSet(t)] + ShortCircuit(e.op, t, r.code) + [LocalGet(t)], r.env))
  {
  }

  // ---- reassociating the pieces of emitted code ----

  lemma Join2(before: seq<Instr>, a: seq<Instr>, b: seq<Instr>)
    ensures before + a + b == before + (a + b)
  {
  }

  lemma Join3(before: seq<Instr>, a: seq<Instr>, b: seq<Instr>, c: seq<Instr>)
    ensures before + a + b + c == before + (a + b + c)
  {
  }

  lemma LogicalCode(before: seq<Instr>, l: seq<Instr>, op: BinOp, t: nat, r: seq<Instr>)
    ensures before + l + ([LocalSet(t), OpenBlock, OpenBlock, LocalGet(t)] + SkipTest(op)) + r + [LocalSet(t), End, End, LocalGet(t)]
         == before + (l + [LocalSet(t)] + ShortCircuit(op, t, r) + [LocalGet(t)])
  {
  }

  lemma IfCode(before: seq<Instr>, t: seq<Instr>, f: seq<Instr>)
    ensures before + [OpenIf] + t + [Else] + f + [End] == before + IfElse(t, f)
  {
  }

  lemma CoalesceCode(before: seq<Instr>, l: seq<Instr>, temp: nat, r: seq<Instr>)
    ensures before + l + (NullTest(temp) + [OpenIf]) + r + [Else, LocalGet(temp), End]
         == before + (l + NullTest(temp) + IfElse(r, [LocalGet(temp)]))
  {
  }

  lemma LoopCode(before: seq<Instr>, b: seq<Instr>)
    ensures before + [OpenBlock, OpenLoop] + b + [Drop] + [Br(0)] + [End, End] + [PushNull]
         == before + (InLoop(b + [Drop, Br(0)]) + [PushNull])
  {
  }

  lemma WhileCode(before: seq<Instr>, x: seq<Instr>, b: seq<Instr>)
    ensures before + [OpenBlock, OpenLoop] + x + [BoolNot, BrIf(1)] + b + [Br(0)] + [End, End]
         == before + InLoop(x + [BoolNot, BrIf(1)] + b + [Br(0)])
  {
  }

  lemma DoWhileCode(before: seq<Instr>, b: seq<Instr>, x: seq<Instr>)
    ensures before + [OpenBlock, OpenLoop] + b + x + [BoolNot, BrIf(1)] + [Br(0)] + [End, End]
         == before + InLoop(b + x + [BoolNot, BrIf(1), Br(0)])
  {
  }


  lemma Deepen(loops: seq<LoopContext>, depth: nat, n: nat)
    requires Nested(loops, depth)
    ensures Nested(loops, depth + n) && RelativeLabel(loops, depth + n) == Deeper(RelativeLabel(loops, depth), n)
  {
  }

  function Prefixed(code: seq<Instr>, rest: Option<Emitted>): Option<Emitted> {
    if rest.None? then None else Some(After(code, rest.value))
  }

  lemma PrefixNone(rest: Option<Emitted>)
    ensures Prefixed([], rest) == rest
  {
    assert rest.Some? ==> [] + rest.value.code == rest.value.code;
  }

  lemma PrefixMore(a: seq<Instr>, b: seq<Instr>, rest: Option<Emitted>)
    ensures Prefixed(a, Prefixed(b, rest)) == Prefixed(a + b, rest)
  {
    assert rest.Some? ==> a + (b + rest.value.code) == a + b + rest.value.code;
  }

  lemma TopCode(code: seq<Instr>)
    ensures [] + code + [PushNull] + [Leave] == code + [PushNull, Leave]
  {
  }

  lemma CallGen(u: Unit, e: Expr, k: Option<nat>, env: Env)
    requires e.Call? && env.scopes != []
    ensures GenExpr(u, e, k, env) ==
      match GenArgs(u, e.args, k, env)
      case None => None
      case Some(a) => Some(After(a.code, GenCallee(u, e.fn, |e.args|, a.env)))
  {
  }

  lemma ArgsGen(u: Unit, args: seq<Expr>, k: Option<nat>, env: Env)
    requires env.scopes != []
    ensures GenArgs(u, args, k, env) ==
      if args == [] then Some(Emitted([], env))
      else match GenExpr(u, args[0], k, env)
           case None => None
           case Some(x) => Prefixed(x.code, GenArgs(u, args[1..], k, x.env))
  {
  }

  // The else branch; a missing one leaves null.
  function GenElse(u: Unit, els: Option<Block>, k: Option<nat>, env: Env): Option<Emitted> {
    if els.None? then Some(Emitted([PushNull], env)) else GenBlock(u, els.value, k, env)
  }

  // The code of both branches.
  function GenArms(u: Unit, thn: Block, els: Option<Block>, k: Option<nat>, env: Env): Option<Emitted>
    requires env.scopes != []
  {
    match GenBlock(u, thn, k, env)
    case None => None
    case Some(t) =>
      match GenElse(u, els, k, t.env)
      case None => None
      case Some(f) => Some(Emitted(IfElse(t.code, f.code), f.env))
  }

  lemma IfGen(u: Unit, e: Expr, k: Option<nat>, env: Env)
    requires e.If? && env.scopes != []
    ensures GenExpr(u, e, k, env) ==
      match GenExpr(u, e.cond, k, env)
      case None => None
      case Some(x) =>
        match GenArms(u, e.thn, e.els, Deeper(k, 1), x.env)
        case None => None
        case Some(a) => Some(Emitted(x.code + a.code, a.env))
  {
  }

  lemma CoalesceGen(u: Unit, e: Expr, k: Option<nat>, env: Env)
    requires e.Coalesce? && env.scopes != []
    ensures GenExpr(u, e, k, env) ==
      match GenExpr(u, e.first, k, env)
      case None => None
      case Some(l) =>
        var mid := WithTemp(l.env);
        var t := TempSlot(mid);
        match GenExpr(u, e.default, Deeper(k, 1), mid)
        case None => None
        case Some(r) => Some(Emitted(l.code + NullTest(t) + IfElse(r.code, [LocalGet(t)]), r.env))
  {
  }

  lemma LoopGen(u: Unit, e: Expr, k: Option<nat>, env: Env)
    requires e.Loop? && env.scopes != []
    ensures GenExpr(u, e, k, env) ==
      match GenBlock(u, e.body, Some(0), env)
      case None => None
      case Some(b) => Some(Emitted(InLoop(b.code + [Drop, Br(0)]) + [PushNull], b.env))
  {
  }

  lemma BlockGen(u: Unit, b: Block, k: Option<nat>, env: Env)
    ensures GenBlock(u, b, k, env) ==
      match GenStmts(u, b.stmts, k, Enter(env))
      case None => None
      case Some(ss) =>
        if b.tail.None? then Some(Emitted(ss.code + [PushNull], Exit(ss.env)))
        else match GenExpr(u, b.tail.value, k, ss.env)
             case None => None
             case Some(t) => Some(Emitted(ss.code + t.code, Exit(t.env)))
  {
    var i := GenInner(u, b, k, Enter(env));
    assert i.Some? ==> i.value.code + [] == i.value.code;
  }

  lemma BodyGen(u: Unit, b: Block, k: Option<nat>, env: Env)
    ensures GenBody(u, b, k, env) ==
      match GenStmts(u, b.stmts, k, Enter(env))
      case None => None
      case Some(ss) =>
        if b.tail.None? then Some(Emitted(ss.code, Exit(ss.env)))
        else match GenExpr(u, b.tail.value, k, ss.env)
             case None => None
             case Some(t) => Some(Emitted(ss.code + t.code + [Drop], Exit(t.env)))
  {
    var i := GenInner(u, b, k, Enter(env));
    assert i.Some? ==> i.value.code + [] == i.value.code;
  }

  lemma StmtsGen(u: Unit, ss: seq<Stmt>, k: Option<nat>, env: Env)
    requires env.scopes != []
    ensures GenStmts(u, ss, k, env) ==
      if ss == [] then Some(Emitted([], env))
      else match GenStmt(u, ss[0], k, env)
           case None => None
           case Some(x) => Prefixed(x.code, GenStmts(u, ss[1..], k, x.env))
  {
  }

  lemma WhileGen(u: Unit, st: Stmt, k: Option<nat>, env: Env)
    requires st.While? && env.scopes != []
    ensures GenStmt(u, st, k, env) ==
      match GenExpr(u, st.cond, Some(0), env)
      case None => None
      case Some(x) =>
        match GenBody(u, st.body, Some(0), x.env)
        case None => None
        case Some(b) => Some(Emitted(InLoop(x.code + [BoolNot, BrIf(1)] + b.code + [Br(0)]), b.env))
  {
  }

  lemma DoWhileGen(u: Unit, st: Stmt, k: Option<nat>, env: Env)
    requires st.DoWhile? && env.scopes != []
    ensures GenStmt(u, st, k, env) ==
      match GenBody(u, st.body, Some(0), env)
      case None => None
      case Some(b) =>
        match GenExpr(u, st.cond, Some(0), b.env)
        case None => None
        case Some(x) => Some(Emitted(InLoop(b.code + x.code + [BoolNot, BrIf(1), Br(0)]), x.env))
  {
  }

  // The statements that act on one value, the expression they evaluate, and what they add.
  predicate Simple(st: Stmt) {
    st.Let? || st.Assign? || st.Output? || st.ExprStmt? || st.Return? || st.Throw?
  }

  function Operand(st: Stmt): Expr
    requires Simple(st) && !(st.Return? && st.result.None?)
  {
    match st
    case Let(_, x) => x
    case Assign(_, x) => x
    case Output(x) => x
    case ExprStmt(x) => x
    case Return(x) => x.value
    case Throw(x) => x
  }

  function GenFinish(u: Unit, st: Stmt, env: Env): Emitted
    requires Simple(st) && env.scopes != []
  {
    match st
    case Let(name, _) => GenBind(u, name, env)
    case Assign(name, _) => GenWrite(u, name, env)
    case Output(_) => Emitted([Print], env)
    case ExprStmt(_) => Emitted([Drop], env)
    case Return(_) => Emitted([Leave], env)
    case Throw(_) => Emitted([Drop, Unreachable], env)
  }

  lemma SimpleGen(u: Unit, st: Stmt, k: Option<nat>, env: Env)
    requires env.scopes != []
    ensures st.FnDef? ==> GenStmt(u, st, k, env) == Some(Emitted([], env))
    ensures st.Return? && st.result.None? ==> GenStmt(u, st, k, env) == Some(Emitted([PushNull, Leave], env))
    ensures Simple(st) && !(st.Return? && st.result.None?) ==>
      GenStmt(u, st, k, env) ==
        match GenExpr(u, Operand(st), k, env)
        case None => None
        case Some(x) => Some(After(x.code, GenFinish(u, st, x.env)))
  {
    hide GenExpr;
  }
}
