// The structured stack machine that the IR (src/compiler/ir.rs) targets: a flat
// instruction list run with an operand stack and a label stack, as in
// section 4.4.5 of WebAssembly Core 1.0.
module IrMachine {
  import opened Wrappers
  import opened Syntax
  import opened Values
  import opened Semantics

  datatype Instr =
    | PushNull
    | PushBool(b: bool)
    | PushI64(n: int)
    | PushString(str: nat)
    | LocalGet(idx: nat)
    | LocalSet(idx: nat)
    | GlobalGet(idx: nat)
    | GlobalSet(idx: nat)
    | I64Eq
    | I64Neg
    | BoolNot
    | GetTag
    | Br(lbl: nat)
    | BrIf(lbl: nat)
    | OpenBlock
    | OpenLoop
    | OpenIf
    | Else
    | End
    | Leave
    | Unreachable
    | Drop
    | Invoke(fn: nat)
    | InvokeIndirect(argc: nat)
    | Print
    | RuntimeCall(name: nat, argc: nat)

  datatype Function = Function(name: string, params: nat, locals: nat, code: seq<Instr>)

  datatype Module = Module(functions: seq<Function>, strings: seq<string>, globals: seq<string>)

  // What a branch to a label does: where to go, and how much of the operand stack survives.
  datatype Label = Label(target: nat, height: nat, arity: nat)

  datatype Frame = Frame(fn: nat, pc: nat, stack: seq<Value>, labels: seq<Label>, locals: seq<Value>)

  datatype Config =
    | Run(frame: Frame, callers: seq<Frame>, globals: seq<Value>, out: seq<string>)
    | Halt(v: Value, globals: seq<Value>, out: seq<string>)
    | Trap(globals: seq<Value>, out: seq<string>)

  function TagOf(v: Value): int {
    match v
    case Null => 0
    case Bool(_) => 1
    case Int(_) => 2
    case Str(_) => 3
  }

  // The runtime helper that implements an operator, by name.
  function OpName(op: BinOp): string {
    match op
    case Add => "__add" case Sub => "__sub" case Mul => "__mul" case Div => "__div" case Mod => "__mod"
    case Eq => "__eq" case NotEq => "__ne" case Gt => "__gt" case Lt => "__lt" case GtEq => "__ge" case LtEq => "__le"
    case And => "" case Or => ""
    case In => "__in" case BitAnd => "__bit_and" case BitOr => "__bit_or" case BitXor => "__bit_xor"
    case Shl => "__bit_shl" case Shr => "__bit_shr" case AndNot => "__bit_andnot" case Pow => "__pow"
  }

  function NamedOp(name: string): Option<BinOp> {
    if name == "__add" then Some(Add) else if name == "__sub" then Some(Sub)
    else if name == "__mul" then Some(Mul) else if name == "__div" then Some(Div)
    else if name == "__mod" then Some(Mod) else if name == "__eq" then Some(Eq)
    else if name == "__ne" then Some(NotEq) else if name == "__gt" then Some(Gt)
    else if name == "__lt" then Some(Lt) else if name == "__ge" then Some(GtEq)
    else if name == "__le" then Some(LtEq) else if name == "__in" then Some(In)
    else if name == "__bit_and" then Some(BitAnd) else if name == "__bit_or" then Some(BitOr)
    else if name == "__bit_xor" then Some(BitXor) else if name == "__bit_shl" then Some(Shl)
    else if name == "__bit_shr" then Some(Shr) else if name == "__bit_andnot" then Some(AndNot)
    else if name == "__pow" then Some(Pow) else None
  }

  lemma NamedOpInverse(op: BinOp)
    requires !op.And? && !op.Or?
    ensures NamedOp(OpName(op)) == Some(op)
  {
    var n := OpName(op);
    assert |n| >= 4;
    match op
    case Add => case Sub => assert n[2] == 's'; case Mul => assert n[2] == 'm'; assert n[3] == 'u';
    case Div => assert n[2] == 'd'; case Mod => assert n[2] == 'm'; assert n[3] == 'o';
    case Eq => assert n[2] == 'e'; case NotEq => assert n[2] == 'n'; case Gt => assert n[2] == 'g'; assert n[3] == 't';
    case Lt => assert n[2] == 'l'; assert n[3] == 't'; case GtEq => assert n[2] == 'g'; assert n[3] == 'e';
    case LtEq => assert n[2] == 'l'; assert n[3] == 'e'; case In => assert n[2] == 'i';
    case BitAnd => assert |n| == 9 && n[6] == 'a'; case BitOr => assert |n| == 8 && n[6] == 'o';
    case BitXor => assert |n| == 9 && n[6] == 'x'; case Shl => assert |n| == 9 && n[6] == 's' && n[8] == 'l';
    case Shr => assert |n| == 9 && n[6] == 's' && n[8] == 'r'; case AndNot => assert |n| == 12; case Pow => assert n[2] == 'p';
  }

  predicate Opens(i: Instr) {
    i.OpenBlock? || i.OpenLoop? || i.OpenIf?
  }

  // Position of the `End` that closes the construct around position `i`, `d` levels up.
  function FindEnd(code: seq<Instr>, i: nat, d: nat): (r: nat)
    ensures r >= i
    decreases |code| - i
  {
    if i >= |code| then i
    else if Opens(code[i]) then FindEnd(code, i + 1, d + 1)
    else if code[i].End? then (if d == 0 then i else FindEnd(code, i + 1, d - 1))
    else FindEnd(code, i + 1, d)
  }

  // Position of the `Else` or `End` that closes the then-branch around position `i`.
  function FindElse(code: seq<Instr>, i: nat, d: nat): (r: nat)
    ensures r >= i
    decreases |code| - i
  {
    if i >= |code| then i
    else if Opens(code[i]) then FindElse(code, i + 1, d + 1)
    else if code[i].End? then (if d == 0 then i else FindElse(code, i + 1, d - 1))
    else if code[i].Else? && d == 0 then i
    else FindElse(code, i + 1, d)
  }

  // A branch pops labels up to and including the target and unwinds the operand stack.
  function BranchTo(f: Frame, l: nat): Frame
    requires l < |f.labels|
    requires f.labels[|f.labels| - 1 - l].height <= |f.stack|
    requires f.labels[|f.labels| - 1 - l].arity <= |f.stack|
  {
    var at := |f.labels| - 1 - l;
    var to := f.labels[at];
    f.(pc := to.target,
       labels := f.labels[..at],
       stack := f.stack[..to.height] + f.stack[|f.stack| - to.arity..])
  }

  function Resume(v: Value, callers: seq<Frame>, globals: seq<Value>, out: seq<string>): Config {
    if callers == [] then Halt(v, globals, out)
    else
      var f := callers[|callers|-1];
      Run(f.(stack := f.stack + [v]), callers[..|callers|-1], globals, out)
  }

  function Push(c: Config, v: Value): Config
    requires c.Run?
  {
    c.(frame := c.frame.(pc := c.frame.pc + 1, stack := c.frame.stack + [v]))
  }

  // A call pops its arguments into the first locals of a new frame.
  function EnterFunction(m: Module, c: Config, g: nat): Config
    requires c.Run?
  {
    var f := c.frame;
    var n := |f.stack|;
    if g >= |m.functions| || m.functions[g].params > n || m.functions[g].params > m.functions[g].locals then Trap(c.globals, c.out)
    else
      var callee := m.functions[g];
      var back := f.(pc := f.pc + 1, stack := f.stack[..n - callee.params]);
      Run(Frame(g, 0, [], [], f.stack[n - callee.params..] + Nulls(callee.locals - callee.params)),
          c.callers + [back], c.globals, c.out)
  }

  function Step(m: Module, p: Prims, c: Config): Config {
    if !c.Run? then c
    else
      var f := c.frame;
      var trap := Trap(c.globals, c.out);
      if f.fn >= |m.functions| || f.pc >= |m.functions[f.fn].code| then trap
      else
        var code := m.functions[f.fn].code;
        var n := |f.stack|;
        match code[f.pc]
        case PushNull => Push(c, Null)
        case PushBool(b) => Push(c, Bool(b))
        case PushI64(i) => Push(c, Int(i))
        case PushString(i) => if i < |m.strings| then Push(c, Str(m.strings[i])) else trap
        case LocalGet(i) => if i < |f.locals| then Push(c, f.locals[i]) else trap
        case GlobalGet(i) => if i < |c.globals| then Push(c, c.globals[i]) else trap
        case LocalSet(i) =>
          if n == 0 || i >= |f.locals| then trap
          else c.(frame := f.(pc := f.pc + 1, stack := f.stack[..n-1], locals := f.locals[i := f.stack[n-1]]))
        case GlobalSet(i) =>
          if n == 0 || i >= |c.globals| then trap
          else c.(frame := f.(pc := f.pc + 1, stack := f.stack[..n-1]), globals := c.globals[i := f.stack[n-1]])
        case Drop =>
          if n == 0 then trap else c.(frame := f.(pc := f.pc + 1, stack := f.stack[..n-1]))
        case Print =>
          if n == 0 then trap
          else c.(frame := f.(pc := f.pc + 1, stack := f.stack[..n-1]), out := c.out + [p.show(f.stack[n-1])])
        case BoolNot => if n == 0 then trap else Pop1(c, Bool(!p.truthy(f.stack[n-1])))
        case GetTag => if n == 0 then trap else Pop1(c, Int(TagOf(f.stack[n-1])))
        case I64Neg =>
          if n == 0 || p.neg(f.stack[n-1]).None? then trap else Pop1(c, p.neg(f.stack[n-1]).value)
        case I64Eq => if n < 2 then trap else Pop2(c, Bool(f.stack[n-2] == f.stack[n-1]))
        case RuntimeCall(name, argc) =>
          if name >= |m.strings| || argc != 2 || n < 2 || NamedOp(m.strings[name]).None? then trap
          else
            var r := p.bin(NamedOp(m.strings[name]).value, f.stack[n-2], f.stack[n-1]);
            if r.None? then trap else Pop2(c, r.value)
        case OpenBlock =>
          c.(frame := f.(pc := f.pc + 1, labels := f.labels + [Label(FindEnd(code, f.pc + 1, 0) + 1, n, 0)]))
        case OpenLoop =>
          c.(frame := f.(pc := f.pc + 1, labels := f.labels + [Label(f.pc, n, 0)]))
        case OpenIf =>
          if n == 0 then trap
          else
            var f' := f.(stack := f.stack[..n-1],
                         labels := f.labels + [Label(FindEnd(code, f.pc + 1, 0) + 1, n - 1, 1)]);
            c.(frame := f'.(pc := if p.truthy(f.stack[n-1]) then f.pc + 1 else FindElse(code, f.pc + 1, 0) + 1))
        case Else =>
          if f.labels == [] then trap
          else c.(frame := f.(pc := FindEnd(code, f.pc + 1, 0) + 1, labels := f.labels[..|f.labels|-1]))
        case End =>
          if f.labels == [] then trap
          else c.(frame := f.(pc := f.pc + 1, labels := f.labels[..|f.labels|-1]))
        case Br(l) => if CanBranch(f, l) then c.(frame := BranchTo(f, l)) else trap
        case BrIf(l) =>
          if n == 0 then trap
          else
            var f' := f.(stack := f.stack[..n-1]);
            if !p.truthy(f.stack[n-1]) then c.(frame := f'.(pc := f.pc + 1))
            else if CanBranch(f', l) then c.(frame := BranchTo(f', l)) else trap
        case Leave => if n == 0 then trap else Resume(f.stack[n-1], c.callers, c.globals, c.out)
        case Unreachable => trap
        case Invoke(g) => EnterFunction(m, c, g)
        case InvokeIndirect(argc) =>
          if n == 0 || !f.stack[n-1].Int? || f.stack[n-1].n < 0 then trap
          else
            var g := f.stack[n-1].n;
            if g >= |m.functions| || m.functions[g].params != argc then trap
            else EnterFunction(m, c.(frame := f.(stack := f.stack[..n-1])), g)
  }

  predicate CanBranch(f: Frame, l: nat) {
    l < |f.labels| && f.labels[|f.labels| - 1 - l].height <= |f.stack| && f.labels[|f.labels| - 1 - l].arity <= |f.stack|
  }

  function Pop1(c: Config, v: Value): Config
    requires c.Run? && |c.frame.stack| >= 1
  {
    c.(frame := c.frame.(pc := c.frame.pc + 1, stack := c.frame.stack[..|c.frame.stack|-1] + [v]))
  }

  function Pop2(c: Config, v: Value): Config
    requires c.Run? && |c.frame.stack| >= 2
  {
    c.(frame := c.frame.(pc := c.frame.pc + 1, stack := c.frame.stack[..|c.frame.stack|-2] + [v]))
  }

  function Nulls(n: nat): seq<Value> {
    seq(n, _ => Null)
  }

  function Steps(m: Module, p: Prims, n: nat, c: Config): Config {
    if n == 0 then c else Steps(m, p, n - 1, Step(m, p, c))
  }

  // Some number of steps leads from `a` to `b`.
  ghost predicate Reach(m: Module, p: Prims, a: Config, b: Config) {
    exists n: nat :: Steps(m, p, n, a) == b
  }

  lemma {:induction false} StepsAdd(m: Module, p: Prims, i: nat, j: nat, c: Config)
    ensures Steps(m, p, i + j, c) == Steps(m, p, j, Steps(m, p, i, c))
  {
    if i > 0 {
      StepsAdd(m, p, i - 1, j, Step(m, p, c));
    }
  }

  lemma ReachRefl(m: Module, p: Prims, a: Config)
    ensures Reach(m, p, a, a)
  {
    assert Steps(m, p, 0, a) == a;
  }

  lemma ReachTrans(m: Module, p: Prims, a: Config, b: Config, c: Config)
    requires Reach(m, p, a, b) && Reach(m, p, b, c)
    ensures Reach(m, p, a, c)
  {
    var i: nat :| Steps(m, p, i, a) == b;
    var j: nat :| Steps(m, p, j, b) == c;
    StepsAdd(m, p, i, j, a);
  }

  lemma ReachStep(m: Module, p: Prims, a: Config, b: Config)
    requires Reach(m, p, a, b)
    ensures Reach(m, p, a, Step(m, p, b))
  {
    var i: nat :| Steps(m, p, i, a) == b;
    StepsAdd(m, p, i, 1, a);
    assert Steps(m, p, 1, b) == Step(m, p, b) by {
      assert Steps(m, p, 0, Step(m, p, b)) == Step(m, p, b);
    }
  }

  // The machine is deterministic: a final configuration is the only one a run can end in.
  lemma FinalUnique(m: Module, p: Prims, a: Config, b: Config, c: Config)
    requires Reach(m, p, a, b) && Reach(m, p, a, c)
    requires !b.Run? && !c.Run?
    ensures b == c
  {
    var i: nat :| Steps(m, p, i, a) == b;
    var j: nat :| Steps(m, p, j, a) == c;
    if i <= j {
      StepsAdd(m, p, i, j - i, a);
      FinalStays(m, p, j - i, b);
    } else {
      StepsAdd(m, p, j, i - j, a);
      FinalStays(m, p, i - j, c);
    }
  }

  lemma {:induction false} FinalStays(m: Module, p: Prims, n: nat, c: Config)
    requires !c.Run?
    ensures Steps(m, p, n, c) == c
  {
    if n > 0 {
      FinalStays(m, p, n - 1, c);
    }
  }
}
