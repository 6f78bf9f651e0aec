/**
 * The syntax tree: the expression and statement variants with the fields
 * the AST generator lists for them. `Assign` and `Variable` keep their
 * name token so that errors can cite its line and lexeme.
 */
module Ast {
  import opened Options
  import opened Tokens

  datatype Expr =
    | Assign(name: Token, value: Expr)
    | Binary(left: Expr, operator: Token, right: Expr)
    | Grouping(expression: Expr)
    | Literal(literal: Value)
    | Unary(operator: Token, right: Expr)
    | Variable(name: Token)

  /**
   * A statement. A `Block` holds what `block()` collected, including the
   * `null` entries left by declarations that failed to parse (`None`);
   * a `Var` without an initializer has `None` there.
   */
  datatype Stmt =
    | Block(statements: seq<Option<Stmt>>)
    | Expression(expression: Expr)
    | Print(expression: Expr)
    | Var(name: Token, initializer: Option<Expr>)

  /** No `null` placeholder anywhere in the statement, however deeply nested in blocks. */
  predicate Complete(s: Stmt)
    decreases s
  {
    match s
    case Block(items) =>
      forall i | 0 <= i < |items| :: items[i].Some? && Complete(items[i].value)
    case _ => true
  }

  predicate AllComplete(items: seq<Option<Stmt>>) {
    forall i | 0 <= i < |items| :: items[i].Some? && Complete(items[i].value)
  }
}
