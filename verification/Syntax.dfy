// The abstract syntax that the two compilers and the optimizer work on
// (src/syntax/ast.rs), without spans, comments and type annotations.
module Syntax {
  import opened Wrappers

  datatype BinOp =
    | Add | Sub | Mul | Div | Mod
    | Eq | NotEq | Gt | Lt | GtEq | LtEq
    | And | Or
    | In | BitAnd | BitOr | BitXor | Shl | Shr | AndNot | Pow

  datatype UnOp = Not | Neg

  // Scalar run-time values; `Int` holds the mathematical value of an i64.
  datatype Value = Null | Bool(b: bool) | Int(n: int) | Str(s: string)

  datatype Expr =
    | Lit(value: Value)
    | Var(name: string)
    | Bin(op: BinOp, left: Expr, right: Expr)
    | Un(uop: UnOp, operand: Expr)
    | Call(fn: string, args: seq<Expr>)
    | If(cond: Expr, thn: Block, els: Option<Block>)
    | BlockExpr(block: Block)
    | Coalesce(first: Expr, default: Expr)
    | Loop(body: Block)

  datatype Block = Block(stmts: seq<Stmt>, tail: Option<Expr>)

  // `let`, `let mut` and `const` bind alike in every compiler, so they are one constructor.
  datatype Stmt =
    | Let(name: string, value: Expr)
    | Assign(name: string, value: Expr)
    | Output(value: Expr)
    | ExprStmt(expr: Expr)
    | While(cond: Expr, body: Block)
    | DoWhile(body: Block, cond: Expr)
    | Break
    | Continue
    | Return(result: Option<Expr>)
    | Throw(value: Expr)
    | FnDef(decl: FnDecl)

  datatype FnDecl = FnDecl(name: string, params: seq<string>, body: Block)

  type Program = seq<Stmt>

  // The last definition of a name wins, as in the hash maps of both compilers.
  function Functions(p: Program): (funs: map<string, FnDecl>)
    ensures forall f :: f in funs ==> funs[f].name == f
  {
    if p == [] then map[]
    else
      var funs := Functions(p[..|p|-1]);
      var last := p[|p|-1];
      if last.FnDef? then funs[last.decl.name := last.decl] else funs
  }
}
