// What every evaluator and every machine shares: the value operators, the ways a
// fragment can end, and the lookup of a name in nested scopes.
module Values {
  import opened Wrappers
  import opened Syntax

  // The value operators.  Every evaluator and machine takes the same record,
  // so what a theorem says holds for every reading of the operators.
  datatype Prims = Prims(
    bin: (BinOp, Value, Value) -> Option<Value>,
    neg: Value -> Option<Value>,
    truthy: Value -> bool,
    show: Value -> string)
  {
    ghost predicate Valid() {
      truthy(Bool(true)) && !truthy(Bool(false))
    }
  }

  predicate Logical(op: BinOp) {
    op.And? || op.Or?
  }

  // Whether the interpreter evaluates the right operand.
  predicate NeedsRight(p: Prims, op: BinOp, l: Value) {
    if op.And? then p.truthy(l) else if op.Or? then !p.truthy(l) else true
  }

  // `Fail` covers run-time errors and running out of fuel.
  datatype Outcome = Norm(v: Value) | Brk | Cont | Ret(v: Value) | Thrown(v: Value) | Fail

  // Index of the innermost scope that binds `name`.
  function Innermost<T>(scopes: seq<map<string, T>>, name: string): (r: Option<nat>)
    ensures r.Some? ==> r.value < |scopes| && name in scopes[r.value]
    ensures r.Some? ==> forall j :: r.value < j < |scopes| ==> name !in scopes[j]
    ensures r.None? ==> forall j :: 0 <= j < |scopes| ==> name !in scopes[j]
  {
    if scopes == [] then None
    else if name in scopes[|scopes|-1] then Some(|scopes|-1)
    else Innermost(scopes[..|scopes|-1], name)
  }
}
