// One lemma per instruction of the byte code: how it extends a run.
module BytecodeSteps {
  import opened Wrappers
  import opened Syntax
  import opened Semantics
  import opened BytecodeMachine
  import opened BytecodeGen

  // The machine at `ip` of a chunk, called from `k`, in the globals and output of `s`.
  function At(ch: Chunk, k: seq<Frame>, ip: nat, stack: seq<Value>, s: State): Config {
    Run(Frame(ch, ip, stack), k, s.globals, s.out)
  }

  lemma SegSplit(code: seq<nat>, p: nat, a: seq<nat>, b: seq<nat>)
    requires Segment(code, p, a + b)
    ensures Segment(code, p, a) && Segment(code, p + |a|, b)
  {
    assert code[p..p + |a + b|][..|a|] == code[p..p + |a|];
    assert code[p..p + |a + b|][|a|..] == code[p + |a|..p + |a| + |b|];
  }

  lemma SegSplit3(code: seq<nat>, p: nat, a: seq<nat>, b: seq<nat>, c: seq<nat>)
    requires Segment(code, p, a + b + c)
    ensures Segment(code, p, a) && Segment(code, p + |a|, b) && Segment(code, p + |a| + |b|, c)
  {
    SegSplit(code, p, a + b, c);
    SegSplit(code, p, a, b);
  }

  ghost predicate Ready(m: Image, a: Config, ch: Chunk, k: seq<Frame>, ip: nat, stack: seq<Value>, s: State, op: Op) {
    Reach(m, a, At(ch, k, ip, stack, s)) && Segment(ch.code, ip, Encode(op)) && InRange(op)
  }

  lemma Go(m: Image, a: Config, ch: Chunk, k: seq<Frame>, ip: nat, stack: seq<Value>, s: State, op: Op)
    requires Ready(m, a, ch, k, ip, stack, s, op)
    ensures ip < |ch.code| && Fetch(ch.code, ip) == Some(op)
    ensures Reach(m, a, Step(m, At(ch, k, ip, stack, s)))
  {
    hide Step;
    FetchEncoded(ch.code, ip, op);
    ReachStep(m, a, At(ch, k, ip, stack, s));
  }

  // What an instruction that only pushes pushes.
  function Pushed(m: Image, ch: Chunk, stack: seq<Value>, s: State, op: Op): Option<Value> {
    match op
    case PushConst(i) => if i < |ch.constants| then Some(ch.constants[i]) else None
    case PushNull => Some(Null)
    case PushTrue => Some(Bool(true))
    case PushFalse => Some(Bool(false))
    case LoadLocal(i) => Some(if i < |stack| then stack[i] else Null)
    case LoadGlobal(n) => Some(GetGlobal(s.globals, NameOf(m, n)))
    case _ => None
  }

  lemma GoPush(m: Image, a: Config, ch: Chunk, k: seq<Frame>, ip: nat, stack: seq<Value>, s: State, op: Op)
    requires Ready(m, a, ch, k, ip, stack, s, op) && Pushed(m, ch, stack, s, op).Some?
    ensures Reach(m, a, At(ch, k, ip + Size(op), stack + [Pushed(m, ch, stack, s, op).value], s))
  {
    hide Reach, Fetch, Encode;
    Go(m, a, ch, k, ip, stack, s, op);
  }

  lemma GoBinary(m: Image, a: Config, ch: Chunk, k: seq<Frame>, ip: nat, base: seq<Value>, x: Value, y: Value, s: State, b: BinOp)
    requires Ready(m, a, ch, k, ip, base + [x] + [y], s, Binary(b))
    ensures Reach(m, a, At(ch, k, ip + 1, base + [Apply(m.prims, b, x, y)], s))
  {
    hide Reach, Fetch, Apply;
    var stack := base + [x] + [y];
    Go(m, a, ch, k, ip, stack, s, Binary(b));
    assert Dropped(stack, 2) == base && Dropped(stack, 1) == base + [x];
  }

  lemma GoUnary(m: Image, a: Config, ch: Chunk, k: seq<Frame>, ip: nat, base: seq<Value>, x: Value, s: State, op: Op)
    requires Ready(m, a, ch, k, ip, base + [x], s, op) && (op.Negate? || op.Invert?)
    ensures Reach(m, a, At(ch, k, ip + 1, base + [if op.Invert? then Bool(!m.prims.truthy(x)) else OrNull(m.prims.neg(x))], s))
  {
    hide Reach, Fetch;
    Go(m, a, ch, k, ip, base + [x], s, op);
    assert Dropped(base + [x], 1) == base;
  }

  lemma GoPop(m: Image, a: Config, ch: Chunk, k: seq<Frame>, ip: nat, stack: seq<Value>, s: State)
    requires Ready(m, a, ch, k, ip, stack, s, Pop) && stack != []
    ensures Reach(m, a, At(ch, k, ip + 1, stack[..|stack|-1], s))
  {
    hide Reach, Fetch;
    Go(m, a, ch, k, ip, stack, s, Pop);
  }

  lemma GoPrint(m: Image, a: Config, ch: Chunk, k: seq<Frame>, ip: nat, stack: seq<Value>, s: State)
    requires Ready(m, a, ch, k, ip, stack, s, Print) && stack != []
    ensures Reach(m, a, At(ch, k, ip + 1, stack[..|stack|-1], s.(out := s.out + [m.prims.show(TopOr(stack))])))
  {
    hide Reach, Fetch;
    Go(m, a, ch, k, ip, stack, s, Print);
  }

  // The stored value stays on top.
  lemma GoStoreLocal(m: Image, a: Config, ch: Chunk, k: seq<Frame>, ip: nat, stack: seq<Value>, s: State, i: nat)
    requires Ready(m, a, ch, k, ip, stack, s, StoreLocal(i)) && i < |stack|
    ensures Reach(m, a, At(ch, k, ip + 2, stack[i := TopOr(stack)], s))
  {
    hide Reach, Fetch;
    Go(m, a, ch, k, ip, stack, s, StoreLocal(i));
  }

  lemma GoStoreGlobal(m: Image, a: Config, ch: Chunk, k: seq<Frame>, ip: nat, stack: seq<Value>, s: State, n: nat)
    requires Ready(m, a, ch, k, ip, stack, s, StoreGlobal(n)) && stack != []
    ensures Reach(m, a, At(ch, k, ip + 3, stack, s.(globals := s.globals[NameOf(m, n) := TopOr(stack)])))
  {
    hide Reach, Fetch;
    Go(m, a, ch, k, ip, stack, s, StoreGlobal(n));
  }

  lemma GoJump(m: Image, a: Config, ch: Chunk, k: seq<Frame>, ip: nat, stack: seq<Value>, s: State, to: nat)
    requires Ready(m, a, ch, k, ip, stack, s, Jump(to))
    ensures Reach(m, a, At(ch, k, to, stack, s))
  {
    hide Reach, Fetch;
    Go(m, a, ch, k, ip, stack, s, Jump(to));
  }

  // The tested value stays on top too.
  lemma GoBranch(m: Image, a: Config, ch: Chunk, k: seq<Frame>, ip: nat, stack: seq<Value>, s: State, op: Op, to: nat)
    requires Ready(m, a, ch, k, ip, stack, s, op) && (op == JumpIfFalse(to) || op == JumpIfTrue(to)) && stack != []
    ensures Reach(m, a, At(ch, k, if m.prims.truthy(TopOr(stack)) == op.JumpIfTrue? then to else ip + 3, stack, s))
  {
    hide Reach, Fetch;
    Go(m, a, ch, k, ip, stack, s, op);
  }

  lemma GoLeave(m: Image, a: Config, ch: Chunk, k: seq<Frame>, ip: nat, stack: seq<Value>, s: State)
    requires Ready(m, a, ch, k, ip, stack, s, Leave) || Ready(m, a, ch, k, ip, stack, s, Stop)
    ensures Reach(m, a, Resume(TopOr(stack), k, s.globals, s.out))
  {
    hide Reach, Fetch;
    if Ready(m, a, ch, k, ip, stack, s, Leave) {
      Go(m, a, ch, k, ip, stack, s, Leave);
    } else {
      Go(m, a, ch, k, ip, stack, s, Stop);
    }
  }

  // Enters a known function with its arguments, cut or filled up to its parameters.
  lemma GoCall(m: Image, a: Config, ch: Chunk, k: seq<Frame>, ip: nat, base: seq<Value>, vs: seq<Value>, s: State, n: nat)
    requires Ready(m, a, ch, k, ip, base + vs, s, CallFn(n, |vs|))
    requires NameOf(m, n) in m.functions
    ensures var f := m.functions[NameOf(m, n)];
      Reach(m, a, At(f.chunk, k + [Frame(ch, ip + 4, base)], 0, Fitted(vs, |f.params|), s))
  {
    hide Reach, Fetch;
    Go(m, a, ch, k, ip, base + vs, s, CallFn(n, |vs|));
    assert Dropped(base + vs, |vs|) == base;
    assert Arguments(base + vs, |vs|) == vs;
    var f := m.functions[NameOf(m, n)];
    assert Bound(vs, |f.params|) == Fitted(vs, |f.params|);
  }

  // A call of a function that does not exist leaves null.
  lemma GoMissing(m: Image, a: Config, ch: Chunk, k: seq<Frame>, ip: nat, base: seq<Value>, vs: seq<Value>, s: State, n: nat)
    requires Ready(m, a, ch, k, ip, base + vs, s, CallFn(n, |vs|)) && NameOf(m, n) !in m.functions
    ensures Reach(m, a, At(ch, k, ip + 4, base + [Null], s))
  {
    hide Reach, Fetch;
    Go(m, a, ch, k, ip, base + vs, s, CallFn(n, |vs|));
    assert Dropped(base + vs, |vs|) == base;
  }

  lemma ResumeCaller(v: Value, k: seq<Frame>, ch: Chunk, ip: nat, base: seq<Value>, s: State)
    ensures Resume(v, k + [Frame(ch, ip, base)], s.globals, s.out) == At(ch, k, ip, base + [v], s)
  {
    var callers := k + [Frame(ch, ip, base)];
    assert callers[..|callers|-1] == k;
  }
}
