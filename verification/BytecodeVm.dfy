// The virtual machine as the source writes it: a fetch-execute loop over one
// mutable stack that saves the stack around each call.  It is proved to run the
// step machine, and to give up only on a stuck program or for want of fuel.
module BytecodeVm {
  import opened Wrappers
  import opened Syntax
  import opened Values
  import opened Semantics
  import opened BytecodeMachine

  class VM {
    const prims: Prims
    var stack: seq<Value>
    var globals: map<string, Value>
    var ip: nat
    var output: seq<string>
    var functions: map<string, FnChunk>

    constructor (prims: Prims)
      ensures this.prims == prims && stack == [] && globals == map[] && output == [] && functions == map[]
    {
      this.prims := prims;
      stack, globals, ip, output, functions := [], map[], 0, [], map[];
    }

    ghost function Machine(names: seq<string>): Image
      reads this`functions
    {
      Image(prims, names, functions)
    }

    ghost function Now(chunk: Chunk, k: seq<Frame>): Config
      reads this`stack, this`globals, this`ip, this`output
    {
      Run(Frame(chunk, ip, stack), k, globals, output)
    }

    method Pop() returns (v: Value)
      modifies this`stack
      ensures v == TopOr(old(stack)) && stack == Dropped(old(stack), 1)
    {
      if stack == [] {
        return Null;
      }
      v := stack[|stack|-1];
      stack := stack[..|stack|-1];
    }

    method BinaryOp(b: BinOp)
      modifies this`stack
      ensures stack == Dropped(old(stack), 2) + [Apply(prims, b, TopOr(Dropped(old(stack), 1)), TopOr(old(stack)))]
    {
      var y := Pop();
      var x := Pop();
      stack := stack + [Apply(prims, b, x, y)];
    }

    method StoreLocal(i: nat)
      modifies this`stack
      ensures stack == if old(stack) == [] then [] else Store(old(stack), i)
    {
      if stack != [] {
        var v := stack[|stack|-1];
        ghost var before := stack;
        while |stack| <= i
          invariant stack == before + Nulls(|stack| - |before|) && |before| <= |stack|
          invariant |stack| <= i + 1 || stack == before
          decreases i + 1 - |stack|
        {
          assert Nulls(|stack| - |before|) + [Null] == Nulls(|stack| - |before| + 1);
          stack := stack + [Null];
        }
        stack := stack[i := v];
      }
    }

    // Everything but calls, returns and halts; `false` on a constant that does not exist.
    method Simple(op: Op, chunk: Chunk, names: seq<string>, ghost k: seq<Frame>) returns (ok: bool)
      requires ip < |chunk.code| && Fetch(chunk.code, ip) == Some(op) && !op.CallFn? && !op.Leave? && !op.Stop?
      modifies this`stack, this`globals, this`ip, this`output
      ensures Step(Machine(names), old(Now(chunk, k))) == if ok then Now(chunk, k) else Stuck
    {
      hide Fetch, Apply, Store, Nulls, Arguments, GetGlobal, Dropped, Size, OrNull, BytecodeMachine.Bound;
      ip := ip + Size(op);
      ok := true;
      match op
      case PushConst(i) =>
        if i >= |chunk.constants| { return false; }
        stack := stack + [chunk.constants[i]];
      case PushNull => stack := stack + [Null];
      case PushTrue => stack := stack + [Bool(true)];
      case PushFalse => stack := stack + [Bool(false)];
      case Pop => var _ := Pop();
      case Dup => if stack != [] { stack := stack + [stack[|stack|-1]]; }
      case Binary(b) => BinaryOp(b);
      case Negate =>
        if stack != [] {
          var v := Pop();
          stack := stack + [OrNull(prims.neg(v))];
        }
      case Invert =>
        if stack != [] {
          var v := Pop();
          stack := stack + [Bool(!prims.truthy(v))];
        }
      case LoadLocal(i) => stack := stack + [if i < |stack| then stack[i] else Null];
      case StoreLocal(i) => StoreLocal(i);
      case LoadGlobal(n) => stack := stack + [GetGlobal(globals, if n < |names| then names[n] else "")];
      case StoreGlobal(n) => if stack != [] { globals := globals[if n < |names| then names[n] else "" := stack[|stack|-1]]; }
      case Jump(to) => ip := to;
      case JumpIfFalse(to) => if stack != [] && !prims.truthy(stack[|stack|-1]) { ip := to; }
      case JumpIfTrue(to) => if stack != [] && prims.truthy(stack[|stack|-1]) { ip := to; }
      case Print =>
        if stack != [] {
          var v := Pop();
          output := output + [prims.show(v)];
        }
    }

    // Pops the arguments, last one first.
    method PopArguments(n: nat) returns (args: seq<Value>)
      modifies this`stack
      ensures args == Arguments(old(stack), n) && stack == Dropped(old(stack), n)
    {
      args := [];
      ghost var before := stack;
      var i := 0;
      while i < n
        invariant 0 <= i <= n && args == Arguments(before, i) && stack == Dropped(before, i)
      {
        ArgumentsMore(before, i);
        var v := Pop();
        args := [v] + args;
        i := i + 1;
      }
    }

    // `None`: the program got stuck, or more than `fuel` instructions would be needed.
    method ExecuteInner(chunk: Chunk, names: seq<string>, fuel: nat, ghost k: seq<Frame>) returns (r: Option<Value>)
      modifies this`stack, this`globals, this`ip, this`output
      ensures var start := Run(Frame(chunk, 0, old(stack)), k, old(globals), old(output));
        && (r.Some? ==> Reach(Machine(names), start, Resume(r.value, k, globals, output)))
        && (r.None? ==> GivesUp(Machine(names), start, fuel))
      decreases fuel, 0
    {
      hide Step, Fetch, Reach, GivesUp;
      ip := 0;
      var left: nat := fuel;
      ghost var m := Machine(names);
      ghost var start := Now(chunk, k);
      ghost var steps: nat := 0;
      while ip < |chunk.code|
        invariant Machine(names) == m && left <= fuel
        invariant Steps(m, steps, start) == Now(chunk, k) && steps >= fuel - left
        decreases left
      {
        if left == 0 {
          OutOfFuel(m, start, steps, fuel);
          return None;
        }
        left := left - 1;
        StepsMore(m, start, steps);
        var op := Fetch(chunk.code, ip);
        if op.None? {
          StuckFetch(m, Now(chunk, k));
          StuckEnds(m, start, steps + 1, fuel);
          return None;
        }
        if op.value.Leave? || op.value.Stop? {
          EndStep(m, Now(chunk, k), op.value);
          ReachIn(m, start, steps + 1);
          var v := Pop();
          return Some(v);
        }
        if op.value.CallFn? {
          ghost var before := Now(chunk, k);
          ghost var taken;
          var ok;
          ok, taken := CallFunction(op.value, chunk, names, left, k);
          if !ok {
            GivesUpLater(m, start, steps, before, left + 1, fuel);
            return None;
          }
          StepsAdd(m, steps, taken, start);
          steps := steps + taken;
        } else {
          var ok := Simple(op.value, chunk, names, k);
          if !ok {
            StuckEnds(m, start, steps + 1, fuel);
            return None;
          }
          steps := steps + 1;
        }
      }
      StepsMore(m, start, steps);
      FallOff(m, Now(chunk, k));
      ReachIn(m, start, steps + 1);
      var v := Pop();
      return Some(v);
    }

    // A call saves the stack, runs the function on its arguments, and puts the result on the saved stack.
    method CallFunction(op: Op, chunk: Chunk, names: seq<string>, left: nat, ghost k: seq<Frame>) returns (ok: bool, ghost taken: nat)
      requires ip < |chunk.code| && Fetch(chunk.code, ip) == Some(op) && op.CallFn?
      modifies this`stack, this`globals, this`ip, this`output
      ensures ok ==> taken >= 1 && Steps(Machine(names), taken, old(Now(chunk, k))) == Now(chunk, k)
      ensures !ok ==> GivesUp(Machine(names), old(Now(chunk, k)), left + 1)
      decreases left, 1
    {
      hide Step, Fetch, Reach, GivesUp;
      ghost var m, before := Machine(names), Now(chunk, k);
      StepsMore(m, before, 0);
      var here := ip;
      var args := PopArguments(op.argc);
      ip := here + 4;
      var name := if op.name < |names| then names[op.name] else "";
      if name !in functions {
        stack := stack + [Null];
        UnknownStep(m, before, op);
        return true, 1;
      }
      var fn := functions[name];
      var savedIp, savedStack := ip, stack;
      BindArguments(fn.params, args);
      CallStep(m, before, op);
      ghost var back := Frame(chunk, savedIp, savedStack);
      ghost var entered := Run(Frame(fn.chunk, 0, stack), k + [back], globals, output);
      var result := ExecuteInner(fn.chunk, names, left, k + [back]);
      if result.None? {
        GivesUpLater(m, before, 1, entered, left, left + 1);
        return false, 0;
      }
      stack := savedStack + [result.value];
      ip := savedIp;
      ok := true;
      taken := CallReturns(m, before, 1, entered, k, back, result.value, globals, output);
    }

    // The parameters become the whole stack.
    method BindArguments(params: seq<string>, args: seq<Value>)
      modifies this`stack
      ensures stack == Bound(args, |params|)
    {
      stack := [];
      var i := 0;
      while i < |params|
        invariant 0 <= i <= |params| && stack == Bound(args, i)
      {
        BoundMore(args, i);
        stack := stack + [if i < |args| then args[i] else Null];
        i := i + 1;
      }
    }

    method Execute(chunk: Chunk, names: seq<string>, fuel: nat) returns (r: Option<Value>)
      modifies this`stack, this`globals, this`ip, this`output
      ensures var start := Run(Frame(chunk, 0, old(stack)), [], old(globals), old(output));
        && (r.Some? ==> Reach(Machine(names), start, Done(r.value, globals, output)))
        && (r.None? ==> GivesUp(Machine(names), start, fuel))
    {
      r := ExecuteInner(chunk, names, fuel, []);
    }
  }

  // The run gets stuck, or is still going after `fuel` steps.
  ghost predicate GivesUp(m: Image, start: Config, fuel: nat) {
    Reach(m, start, Stuck) || exists j: nat :: j >= fuel && Steps(m, j, start).Run?
  }

  // With enough fuel a run that ends is not given up.
  lemma EnoughFuel(m: Image, start: Config, final: Config) returns (fuel: nat)
    requires Reach(m, start, final) && final.Done?
    ensures !GivesUp(m, start, fuel)
  {
    var n: nat :| Steps(m, n, start) == final;
    fuel := n;
    if Reach(m, start, Stuck) {
      FinalUnique(m, start, final, Stuck);
    }
    forall j: nat | j >= fuel ensures !Steps(m, j, start).Run? {
      StepsAdd(m, n, j - n, start);
      FinalStays(m, j - n, final);
    }
  }

  lemma ArgumentsMore(stack: seq<Value>, n: nat)
    ensures Arguments(stack, n + 1) == [TopOr(Dropped(stack, n))] + Arguments(stack, n)
    ensures Dropped(stack, n + 1) == Dropped(Dropped(stack, n), 1)
  {
    if |stack| <= n {
      assert Nulls(n + 1 - |stack|) == [Null] + Nulls(n - |stack|);
    }
  }

  lemma BoundMore(args: seq<Value>, n: nat)
    ensures Bound(args, n + 1) == Bound(args, n) + [if n < |args| then args[n] else Null]
  {
  }

  lemma StepsMore(m: Image, a: Config, n: nat)
    ensures Steps(m, n + 1, a) == Step(m, Steps(m, n, a))
  {
    StepsAdd(m, n, 1, a);
    assert Steps(m, 1, Steps(m, n, a)) == Steps(m, 0, Step(m, Steps(m, n, a)));
  }

  lemma ReachIn(m: Image, a: Config, n: nat)
    ensures Reach(m, a, Steps(m, n, a))
  {
  }

  lemma OutOfFuel(m: Image, a: Config, n: nat, fuel: nat)
    requires n >= fuel && Steps(m, n, a).Run?
    ensures GivesUp(m, a, fuel)
  {
  }

  lemma StuckEnds(m: Image, a: Config, n: nat, fuel: nat)
    requires Steps(m, n, a) == Stuck
    ensures GivesUp(m, a, fuel)
  {
  }

  lemma StuckFetch(m: Image, c: Config)
    requires c.Run? && c.frame.ip < |c.frame.chunk.code| && Fetch(c.frame.chunk.code, c.frame.ip).None?
    ensures Step(m, c) == Stuck
  {
  }

  lemma EndStep(m: Image, c: Config, op: Op)
    requires c.Run? && c.frame.ip < |c.frame.chunk.code| && Fetch(c.frame.chunk.code, c.frame.ip) == Some(op)
    requires op.Leave? || op.Stop?
    ensures Step(m, c) == Resume(TopOr(c.frame.stack), c.callers, c.globals, c.out)
  {
  }

  lemma FallOff(m: Image, c: Config)
    requires c.Run? && c.frame.ip >= |c.frame.chunk.code|
    ensures Step(m, c) == Resume(TopOr(c.frame.stack), c.callers, c.globals, c.out)
  {
  }

  lemma CallStep(m: Image, c: Config, op: Op)
    requires c.Run? && c.frame.ip < |c.frame.chunk.code| && Fetch(c.frame.chunk.code, c.frame.ip) == Some(op) && op.CallFn?
    requires NameOf(m, op.name) in m.functions
    ensures var fn := m.functions[NameOf(m, op.name)];
      Step(m, c) == Run(Frame(fn.chunk, 0, Bound(Arguments(c.frame.stack, op.argc), |fn.params|)),
                        c.callers + [Frame(c.frame.chunk, c.frame.ip + 4, Dropped(c.frame.stack, op.argc))], c.globals, c.out)
  {
    hide Fetch;
  }

  lemma UnknownStep(m: Image, c: Config, op: Op)
    requires c.Run? && c.frame.ip < |c.frame.chunk.code| && Fetch(c.frame.chunk.code, c.frame.ip) == Some(op) && op.CallFn?
    requires NameOf(m, op.name) !in m.functions
    ensures Step(m, c) == Run(Frame(c.frame.chunk, c.frame.ip + 4, Dropped(c.frame.stack, op.argc) + [Null]), c.callers, c.globals, c.out)
  {
    hide Fetch;
  }

  // The callee's run, put after the steps before the call.
  lemma CallReturns(m: Image, a: Config, n: nat, entered: Config, k: seq<Frame>, back: Frame, v: Value,
                    globals: map<string, Value>, out: seq<string>) returns (n': nat)
    requires Steps(m, n, a) == entered && Reach(m, entered, Resume(v, k + [back], globals, out))
    ensures n' >= n && Steps(m, n', a) == Run(back.(stack := back.stack + [v]), k, globals, out)
  {
    var j: nat :| Steps(m, j, entered) == Resume(v, k + [back], globals, out);
    StepsAdd(m, n, j, a);
    n' := n + j;
    assert (k + [back])[..|k|] == k;
  }

  lemma GivesUpLater(m: Image, a: Config, n: nat, b: Config, left: nat, fuel: nat)
    requires Steps(m, n, a) == b && GivesUp(m, b, left) && n + left >= fuel
    ensures GivesUp(m, a, fuel)
  {
    if Reach(m, b, Stuck) {
      ReachIn(m, a, n);
      ReachTrans(m, a, b, Stuck);
    } else {
      var j: nat :| j >= left && Steps(m, j, b).Run?;
      StepsAdd(m, n, j, a);
      assert Steps(m, n + j, a).Run?;
    }
  }
}
