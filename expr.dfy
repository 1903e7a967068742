/** The syntax tree: a closed set of five expression shapes and eleven statement
    shapes. Each node owns its children, so trees are finite and unshared, which is
    exactly what an inductive datatype is; the visitor's `accept` is a `match`. */
module Ast {
  import opened Tokens
  import opened Results

  datatype Expr =
    | LiteralExpr(value: real)
    | UnaryExpr(op: Token, expr: Expr)
    | BinaryExpr(left: Expr, op: Token, right: Expr)
    | IntegExpr(formula: Expr, limitStart: Expr, limitEnd: Expr)
    | IdentifierExpr(variable: string)

  /** `VariableStmt`'s initializer is a null pointer when absent: an `Option` here. */
  datatype Stmt =
    | ExprStmt(expr: Expr)
    | PrintStmt(expr: Expr)
    | VariableStmt(variable: string, init: Option<Expr>)
    | GraphStmt(expr: Expr)
    | PlotStmt(first: Expr, second: Expr)
    | LineStmt(first: Expr, second: Expr, third: Expr, fourth: Expr)
    | ShowStmt
    | HideStmt
    | ClearStmt
    | CleanStmt
    | ExitStmt

  /** The expression holds no `integ` node anywhere. */
  predicate NoInteg(e: Expr)
  {
    match e
    case LiteralExpr(_) => true
    case IdentifierExpr(_) => true
    case UnaryExpr(_, operand) => NoInteg(operand)
    case BinaryExpr(l, _, r) => NoInteg(l) && NoInteg(r)
    case IntegExpr(_, _, _) => false
  }
}
