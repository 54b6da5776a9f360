// The expression tree the parser builds (the node types of ast.go, which
// parse.go and calculate.go use under lower-case names).
module Ast {
  import opened Tokens

  /** One node of the tree. `Missing` is the nil `expr` that the parser leaves where no
      operand could start (an Illegal token, EOF, a closing bracket, ...). */
  datatype Expr =
    | Missing
    | Literal(kind: Token, raw: string)
    | Identifier(name: string)
    | Unary(op: Token, e: Expr)
    | Binary(l: Expr, op: Token, r: Expr)
    | Paren(e: Expr)
    | Index(e: Expr, index: Expr)
    | Access(e: Expr, name: string)

  /** A node that `parseOperand` builds before looking for a postfix. */
  predicate IsPrimary(x: Expr)
  {
    x.Missing? || x.Literal? || x.Identifier? || x.Paren?
  }
}
