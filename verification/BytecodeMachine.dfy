// Byte code and its stack machine (src/compiler/bytecode.rs).  Locals live in the
// operand stack; stores and conditional jumps leave their operand on it.
module BytecodeMachine {
  import opened Wrappers
  import opened Syntax
  import opened Values
  import opened Semantics

  datatype Op =
    | PushConst(idx: nat)
    | PushNull
    | PushTrue
    | PushFalse
    | Pop
    | Dup
    | Binary(op: BinOp)
    | Negate
    | Invert
    | LoadLocal(slot: nat)
    | StoreLocal(slot: nat)
    | LoadGlobal(name: nat)
    | StoreGlobal(name: nat)
    | Jump(to: nat)
    | JumpIfFalse(to: nat)
    | JumpIfTrue(to: nat)
    | CallFn(name: nat, argc: nat)
    | Leave
    | Print
    | Stop

  // Constants are added without looking for an equal one.
  datatype Chunk = Chunk(code: seq<nat>, constants: seq<Value>)

  datatype FnChunk = FnChunk(chunk: Chunk, params: seq<string>)

  const RETURN: nat := 0x54

  // The operators with an opcode; the compiler emits nothing for the others.
  predicate Supported(op: BinOp) {
    match op
    case Add | Sub | Mul | Div | Mod | Eq | NotEq | Gt | Lt | GtEq | LtEq | And | Or => true
    case _ => false
  }

  function OpByte(op: BinOp): nat {
    match op
    case Add => 0x10 case Sub => 0x11 case Mul => 0x12 case Div => 0x13 case Mod => 0x14
    case Eq => 0x20 case NotEq => 0x21 case Lt => 0x22 case LtEq => 0x23 case Gt => 0x24 case GtEq => 0x25
    case And => 0x31 case Or => 0x32
    case _ => 0
  }

  // `as u8` and the two bytes of `as u16`, high byte first.
  function U8(v: nat): seq<nat> {
    [v % 256]
  }

  function U16(v: nat): seq<nat> {
    [v / 256 % 256, v % 256]
  }

  function Encode(op: Op): (bytes: seq<nat>)
    ensures |bytes| == Size(op)
  {
    match op
    case PushConst(i) => [0x01] + U16(i)
    case PushNull => [0x02]
    case PushTrue => [0x03]
    case PushFalse => [0x04]
    case Pop => [0x05]
    case Dup => [0x60]
    case Binary(b) => [OpByte(b)]
    case Negate => [0x15]
    case Invert => [0x30]
    case LoadLocal(i) => [0x40] + U8(i)
    case StoreLocal(i) => [0x41] + U8(i)
    case LoadGlobal(n) => [0x42] + U16(n)
    case StoreGlobal(n) => [0x43] + U16(n)
    case Jump(to) => [0x50] + U16(to)
    case JumpIfFalse(to) => [0x51] + U16(to)
    case JumpIfTrue(to) => [0x52] + U16(to)
    case CallFn(n, argc) => [0x53] + U16(n) + U8(argc)
    case Leave => [RETURN]
    case Print => [0x70]
    case Stop => [0xFF]
  }

  lemma BytesFit(op: Op)
    ensures forall i | 0 <= i < |Encode(op)| :: Encode(op)[i] < 256
  {
  }

  function Size(op: Op): nat {
    match op
    case PushConst(_) | LoadGlobal(_) | StoreGlobal(_) | Jump(_) | JumpIfFalse(_) | JumpIfTrue(_) => 3
    case LoadLocal(_) | StoreLocal(_) => 2
    case CallFn(_, _) => 4
    case _ => 1
  }

  function Named(b: nat): Option<BinOp> {
    match b
    case 0x10 => Some(Add) case 0x11 => Some(Sub) case 0x12 => Some(Mul) case 0x13 => Some(Div) case 0x14 => Some(Mod)
    case 0x20 => Some(Eq) case 0x21 => Some(NotEq) case 0x22 => Some(Lt) case 0x23 => Some(LtEq)
    case 0x24 => Some(Gt) case 0x25 => Some(GtEq) case 0x31 => Some(And) case 0x32 => Some(Or)
    case _ => None
  }

  // What the fetch part of the loop reads at `ip`; `None` is an unknown opcode or a read past the end.
  function Fetch(code: seq<nat>, ip: nat): (op: Option<Op>)
    requires ip < |code|
  {
    var b := code[ip];
    var word := if ip + 2 < |code| then Some(code[ip + 1] * 256 + code[ip + 2]) else None;
    if b == 0x01 && word.Some? then Some(PushConst(word.value))
    else if b == 0x02 then Some(PushNull)
    else if b == 0x03 then Some(PushTrue)
    else if b == 0x04 then Some(PushFalse)
    else if b == 0x05 then Some(Pop)
    else if b == 0x60 then Some(Dup)
    else if Named(b).Some? then Some(Binary(Named(b).value))
    else if b == 0x15 then Some(Negate)
    else if b == 0x30 then Some(Invert)
    else if b == 0x40 && ip + 1 < |code| then Some(LoadLocal(code[ip + 1]))
    else if b == 0x41 && ip + 1 < |code| then Some(StoreLocal(code[ip + 1]))
    else if b == 0x42 && word.Some? then Some(LoadGlobal(word.value))
    else if b == 0x43 && word.Some? then Some(StoreGlobal(word.value))
    else if b == 0x50 && word.Some? then Some(Jump(word.value))
    else if b == 0x51 && word.Some? then Some(JumpIfFalse(word.value))
    else if b == 0x52 && word.Some? then Some(JumpIfTrue(word.value))
    else if b == 0x53 && ip + 3 < |code| then Some(CallFn(word.value, code[ip + 3]))
    else if b == RETURN then Some(Leave)
    else if b == 0x70 then Some(Print)
    else if b == 0xFF then Some(Stop)
    else None
  }

  // The operand fits the bytes it is stored in.
  predicate InRange(op: Op) {
    match op
    case PushConst(i) => i < 65536
    case LoadGlobal(n) => n < 65536
    case StoreGlobal(n) => n < 65536
    case Jump(to) => to < 65536
    case JumpIfFalse(to) => to < 65536
    case JumpIfTrue(to) => to < 65536
    case LoadLocal(i) => i < 256
    case StoreLocal(i) => i < 256
    case CallFn(n, argc) => n < 65536 && argc < 256
    case Binary(b) => Supported(b)
    case _ => true
  }

  ghost predicate Segment(code: seq<nat>, p: nat, part: seq<nat>) {
    p + |part| <= |code| && code[p..p + |part|] == part
  }

  lemma ByteAt(code: seq<nat>, p: nat, part: seq<nat>, i: nat)
    requires Segment(code, p, part) && i < |part|
    ensures code[p + i] == part[i]
  {
    assert code[p..p + |part|][i] == part[i];
  }

  // Two bytes hold a number, and one byte holds one, exactly when it is small enough.
  lemma BytesBack(v: nat)
    ensures v / 256 % 256 * 256 + v % 256 == v <==> v < 65536
    ensures v % 256 == v <==> v < 256
  {
  }

  // Fetching at an encoded instruction gives the instruction back, if and only if its operand fits.
  lemma FetchEncoded(code: seq<nat>, p: nat, op: Op)
    requires Segment(code, p, Encode(op))
    ensures Fetch(code, p) == Some(op) <==> InRange(op)
  {
    ByteAt(code, p, Encode(op), 0);
    match op
    case PushConst(i) => WordFetched(code, p, 0x01, i);
    case LoadGlobal(n) => WordFetched(code, p, 0x42, n);
    case StoreGlobal(n) => WordFetched(code, p, 0x43, n);
    case Jump(to) => WordFetched(code, p, 0x50, to);
    case JumpIfFalse(to) => WordFetched(code, p, 0x51, to);
    case JumpIfTrue(to) => WordFetched(code, p, 0x52, to);
    case LoadLocal(i) => ByteAt(code, p, Encode(op), 1); BytesBack(i);
    case StoreLocal(i) => ByteAt(code, p, Encode(op), 1); BytesBack(i);
    case CallFn(n, argc) => CallFetched(code, p, n, argc);
    case _ =>
  }

  lemma WordFetched(code: seq<nat>, p: nat, opcode: nat, v: nat)
    requires Segment(code, p, [opcode] + U16(v))
    ensures p + 2 < |code| && code[p] == opcode
    ensures code[p + 1] * 256 + code[p + 2] == v <==> v < 65536
  {
    var part := [opcode] + U16(v);
    ByteAt(code, p, part, 0);
    ByteAt(code, p, part, 1);
    ByteAt(code, p, part, 2);
    BytesBack(v);
  }

  lemma CallFetched(code: seq<nat>, p: nat, n: nat, argc: nat)
    requires Segment(code, p, [0x53] + U16(n) + U8(argc))
    ensures p + 3 < |code| && code[p] == 0x53
    ensures code[p + 1] * 256 + code[p + 2] == n <==> n < 65536
    ensures code[p + 3] == argc <==> argc < 256
  {
    var part := [0x53] + U16(n) + U8(argc);
    ByteAt(code, p, part, 0);
    ByteAt(code, p, part, 1);
    ByteAt(code, p, part, 2);
    ByteAt(code, p, part, 3);
    BytesBack(n);
    BytesBack(argc);
  }

  // ---- the machine ----

  // What all chunks share: the name table and the functions.
  datatype Image = Image(prims: Prims, names: seq<string>, functions: map<string, FnChunk>)

  datatype Frame = Frame(chunk: Chunk, ip: nat, stack: seq<Value>)

  datatype Config =
    | Run(frame: Frame, callers: seq<Frame>, globals: map<string, Value>, out: seq<string>)
    | Done(v: Value, globals: map<string, Value>, out: seq<string>)
    | Stuck

  function NameOf(m: Image, n: nat): string {
    if n < |m.names| then m.names[n] else ""
  }

  function TopOr(stack: seq<Value>): Value {
    if stack == [] then Null else stack[|stack|-1]
  }

  function Dropped(stack: seq<Value>, n: nat): seq<Value> {
    if |stack| <= n then [] else stack[..|stack|-n]
  }

  function Nulls(n: nat): seq<Value> {
    seq(n, _ => Null)
  }

  // Pops `n` arguments; an empty stack supplies null.
  function Arguments(stack: seq<Value>, n: nat): (args: seq<Value>)
    ensures |args| == n
  {
    if |stack| >= n then stack[|stack|-n..] else Nulls(n - |stack|) + stack
  }

  // The callee's first locals: missing arguments are null, surplus ones are dropped.
  function Bound(args: seq<Value>, n: nat): (r: seq<Value>)
    ensures |r| == n
  {
    if |args| >= n then args[..n] else args + Nulls(n - |args|)
  }

  function Resume(v: Value, callers: seq<Frame>, globals: map<string, Value>, out: seq<string>): Config {
    if callers == [] then Done(v, globals, out)
    else
      var f := callers[|callers|-1];
      Run(f.(stack := f.stack + [v]), callers[..|callers|-1], globals, out)
  }

  function OrNull(o: Option<Value>): Value {
    if o.Some? then o.value else Null
  }

  function Apply(p: Prims, op: BinOp, a: Value, b: Value): Value {
    if op.And? then Bool(p.truthy(a) && p.truthy(b))
    else if op.Or? then Bool(p.truthy(a) || p.truthy(b))
    else OrNull(p.bin(op, a, b))
  }

  // Writes slot `i`, growing the stack with nulls if it is too short; the value stays on top.
  function Store(stack: seq<Value>, i: nat): seq<Value>
    requires stack != []
  {
    var grown := if |stack| <= i then stack + Nulls(i + 1 - |stack|) else stack;
    grown[i := stack[|stack|-1]]
  }

  function Step(m: Image, c: Config): Config {
    if !c.Run? then c
    else
      var f := c.frame;
      var st := f.stack;
      var end := Resume(TopOr(st), c.callers, c.globals, c.out);
      if f.ip >= |f.chunk.code| then end
      else
        var op := Fetch(f.chunk.code, f.ip);
        if op.None? then Stuck
        else
          var next := f.ip + Size(op.value);
          match op.value
          case PushConst(i) =>
            if i < |f.chunk.constants| then To(c, next, st + [f.chunk.constants[i]]) else Stuck
          case PushNull => To(c, next, st + [Null])
          case PushTrue => To(c, next, st + [Bool(true)])
          case PushFalse => To(c, next, st + [Bool(false)])
          case Pop => To(c, next, Dropped(st, 1))
          case Dup => To(c, next, if st == [] then st else st + [TopOr(st)])
          case Binary(b) => To(c, next, Dropped(st, 2) + [Apply(m.prims, b, TopOr(Dropped(st, 1)), TopOr(st))])
          case Negate => To(c, next, if st == [] then st else Dropped(st, 1) + [OrNull(m.prims.neg(TopOr(st)))])
          case Invert => To(c, next, if st == [] then st else Dropped(st, 1) + [Bool(!m.prims.truthy(TopOr(st)))])
          case LoadLocal(i) => To(c, next, st + [if i < |st| then st[i] else Null])
          case StoreLocal(i) => To(c, next, if st == [] then st else Store(st, i))
          case LoadGlobal(n) => To(c, next, st + [GetGlobal(c.globals, NameOf(m, n))])
          case StoreGlobal(n) =>
            if st == [] then To(c, next, st)
            else Run(f.(ip := next), c.callers, c.globals[NameOf(m, n) := TopOr(st)], c.out)
          case Jump(to) => To(c, to, st)
          case JumpIfFalse(to) => To(c, if st != [] && !m.prims.truthy(TopOr(st)) then to else next, st)
          case JumpIfTrue(to) => To(c, if st != [] && m.prims.truthy(TopOr(st)) then to else next, st)
          case CallFn(n, argc) =>
            var rest := Dropped(st, argc);
            var name := NameOf(m, n);
            if name !in m.functions then To(c, next, rest + [Null])
            else
              var fn := m.functions[name];
              Run(Frame(fn.chunk, 0, Bound(Arguments(st, argc), |fn.params|)),
                  c.callers + [f.(ip := next, stack := rest)], c.globals, c.out)
          case Leave => end
          case Print =>
            if st == [] then To(c, next, st)
            else Run(f.(ip := next, stack := Dropped(st, 1)), c.callers, c.globals, c.out + [m.prims.show(TopOr(st))])
          case Stop => end
  }

  function To(c: Config, ip: nat, stack: seq<Value>): Config
    requires c.Run?
  {
    c.(frame := c.frame.(ip := ip, stack := stack))
  }

  function Steps(m: Image, n: nat, c: Config): Config {
    if n == 0 then c else Steps(m, n - 1, Step(m, c))
  }

  ghost predicate Reach(m: Image, a: Config, b: Config) {
    exists n: nat :: Steps(m, n, a) == b
  }

  lemma {:induction false} StepsAdd(m: Image, i: nat, j: nat, c: Config)
    ensures Steps(m, i + j, c) == Steps(m, j, Steps(m, i, c))
  {
    if i > 0 {
      StepsAdd(m, i - 1, j, Step(m, c));
    }
  }

  lemma ReachRefl(m: Image, a: Config)
    ensures Reach(m, a, a)
  {
    assert Steps(m, 0, a) == a;
  }

  lemma ReachTrans(m: Image, a: Config, b: Config, c: Config)
    requires Reach(m, a, b) && Reach(m, b, c)
    ensures Reach(m, a, c)
  {
    var i: nat :| Steps(m, i, a) == b;
    var j: nat :| Steps(m, j, b) == c;
    StepsAdd(m, i, j, a);
  }

  lemma ReachStep(m: Image, a: Config, b: Config)
    requires Reach(m, a, b)
    ensures Reach(m, a, Step(m, b))
  {
    assert Steps(m, 0, Step(m, b)) == Step(m, b);
    assert Steps(m, 1, b) == Step(m, b);
    ReachTrans(m, a, b, Step(m, b));
  }

  lemma {:induction false} FinalStays(m: Image, n: nat, c: Config)
    requires !c.Run?
    ensures Steps(m, n, c) == c
  {
    if n > 0 {
      FinalStays(m, n - 1, c);
    }
  }

  // The machine is deterministic: a run can end in one way only.
  lemma FinalUnique(m: Image, a: Config, b: Config, c: Config)
    requires Reach(m, a, b) && Reach(m, a, c) && !b.Run? && !c.Run?
    ensures b == c
  {
    var i: nat :| Steps(m, i, a) == b;
    var j: nat :| Steps(m, j, a) == c;
    if i <= j {
      StepsAdd(m, i, j - i, a);
      FinalStays(m, j - i, b);
    } else {
      StepsAdd(m, j, i - j, a);
      FinalStays(m, i - j, c);
    }
  }
}
