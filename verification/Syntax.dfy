/** Abstract syntax, without source lines: two trees are equal when they are structurally
    equivalent. */
module Syntax {
  import opened Tokens

  datatype LiteralKind = IntLit | RealLit | StringLit | BoolLit

  /** Expression nodes.  `Tuple` is the source's call node without a callee. */
  datatype Expr =
    | Literal(kind: LiteralKind, lexeme: string)
    | Path(parts: seq<string>)
    | Unary(op: Kind, operand: Expr)
    | Binary(op: Kind, left: Expr, right: Expr)
    | Call(callee: Expr, args: seq<Expr>)
    | Tuple(items: seq<Expr>)
    | Member(target: Expr, member: string)
}
