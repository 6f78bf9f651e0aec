/**
 * A reference recursive-descent parser written as functions: one function
 * per grammar rule of `Parser`, each taking the token list and the cursor
 * position at which the rule starts. A rule's outcome is the node it built
 * (or `None` when it throws a `ParseError`), where it left the cursor, and
 * the errors it reported on the way. The imperative parser in `Parsing` is
 * proved to compute exactly these outcomes.
 */
module Grammar {
  import opened Options
  import opened Tokens
  import opened Ast
  import opened Diagnostics

  /** What the scanner hands over: at least one token, and the last one is EOF. */
  predicate WellFormed(tokens: seq<Token>) {
    |tokens| > 0 && tokens[|tokens| - 1].kind == EOF
  }

  /** A cursor the parser can hold: the index of a token of a well-formed list. */
  predicate Valid(tokens: seq<Token>, pos: int) {
    WellFormed(tokens) && 0 <= pos < |tokens|
  }

  /** `isAtEnd()`: the token under the cursor is EOF, as the last token always is. */
  predicate AtEnd(tokens: seq<Token>, pos: nat): (e: bool)
    requires Valid(tokens, pos)
    ensures pos == |tokens| - 1 ==> e
  {
    tokens[pos].kind == EOF
  }

  /** `check(kind)`: never true of EOF, and otherwise whether the token under the cursor has that kind. */
  predicate Check(tokens: seq<Token>, pos: nat, kind: TokenKind): (c: bool)
    requires Valid(tokens, pos)
    ensures kind == EOF ==> !c
    ensures kind != EOF ==> (c <==> tokens[pos].kind == kind)
  {
    !AtEnd(tokens, pos) && tokens[pos].kind == kind
  }

  /** `match(kinds...)` succeeds: the loop over the kinds finds one that checks. */
  predicate Matches(tokens: seq<Token>, pos: nat, kinds: seq<TokenKind>): (m: bool)
    requires Valid(tokens, pos)
    ensures m <==> exists i | 0 <= i < |kinds| :: Check(tokens, pos, kinds[i])
  {
    !AtEnd(tokens, pos) && tokens[pos].kind in kinds
  }

  /** `advance()`: one token forward, except that the cursor never leaves EOF. */
  function Advance(tokens: seq<Token>, pos: nat): (next: nat)
    requires Valid(tokens, pos)
    ensures Valid(tokens, next)
    ensures next == pos <==> AtEnd(tokens, pos)
    ensures next <= pos + 1
  {
    if AtEnd(tokens, pos) then pos else pos + 1
  }

  /**
   * The outcome of a rule started at some cursor: the node, or `None` when
   * the rule throws a `ParseError`; where the cursor is afterwards (for a
   * throw, where it was when the error was raised); and the errors handed
   * to `Lox.error` on the way, in order.
   */
  datatype Parsed<T> = Parsed(result: Option<T>, pos: nat, errors: seq<Diagnostic>)

  /** The outcome of a statement-list loop (`parse()`, `block()`), which never throws. */
  datatype Items = Items(items: seq<Option<Stmt>>, pos: nat, errors: seq<Diagnostic>)

  /**
   * What every rule promises of its outcome: the cursor stays on a token
   * and never moves back; a rule that succeeds has consumed at least one
   * token; a rule that throws has reported an error.
   */
  predicate Advances<T>(tokens: seq<Token>, pos: nat, r: Parsed<T>) {
    Valid(tokens, r.pos) && pos <= r.pos
    && (r.result.Some? ==> pos < r.pos)
    && (r.result.None? ==> |r.errors| > 0)
  }

  /** `consume(kind, message)`: the expected token, or a reported error at the token under the cursor. */
  function Consume(tokens: seq<Token>, pos: nat, kind: TokenKind, message: string): (r: Parsed<Token>)
    requires Valid(tokens, pos)
    ensures Advances(tokens, pos, r)
    ensures r.result.Some? <==> Check(tokens, pos, kind)
    ensures r.result.Some? ==> r.result.value == tokens[pos] && r.pos == pos + 1 && r.errors == []
    ensures r.result.None? ==> r.pos == pos && r.errors == [ErrorAt(tokens[pos], message)]
  {
    if Check(tokens, pos, kind) then Parsed(Some(tokens[pos]), pos + 1, [])
    else Parsed(None, pos, [ErrorAt(tokens[pos], message)])
  }

  // ---------------------------------------------------------------------
  // Expressions: the precedence ladder
  // ---------------------------------------------------------------------

  /** The left-associative binary levels, loosest first. */
  datatype Level = Comma | Equality | Comparison | Term | Factor

  /** The operator list each level's `while (match(...))` loop tests. */
  function Operators(level: Level): seq<TokenKind> {
    match level
    case Comma => [COMMA]
    case Equality => [BANG_EQUAL, EQUAL_EQUAL]
    case Comparison => [GREATER, GREATER_EQUAL, LESS, LESS_EQUAL]
    case Term => [MINUS, PLUS]
    case Factor => [SLASH, STAR]
  }

  /** How loosely a level binds; assignment sits between Equality (3) and Comma (5). */
  function Rank(level: Level): nat {
    match level
    case Factor => 0
    case Term => 1
    case Comparison => 2
    case Equality => 3
    case Comma => 5
  }

  /** The level a binary operator belongs to, if any. */
  function LevelOf(kind: TokenKind): Option<Level> {
    match kind
    case COMMA => Some(Comma)
    case BANG_EQUAL | EQUAL_EQUAL => Some(Equality)
    case GREATER | GREATER_EQUAL | LESS | LESS_EQUAL => Some(Comparison)
    case MINUS | PLUS => Some(Term)
    case SLASH | STAR => Some(Factor)
    case _ => None
  }

  /** `expression()`, which is `comma()`. */
  function ExpressionAt(tokens: seq<Token>, pos: nat): (r: Parsed<Expr>)
    requires Valid(tokens, pos)
    ensures Advances(tokens, pos, r)
    ensures r.result.Some? ==> FitsLevel(r.result.value, Comma)
    decreases |tokens| - pos, 20
  {
    BinaryAt(Comma, tokens, pos)
  }

  /** `comma()`, `equality()`, `comparison()`, `term()`, `factor()`: one operand, then the loop. */
  function BinaryAt(level: Level, tokens: seq<Token>, pos: nat): (r: Parsed<Expr>)
    requires Valid(tokens, pos)
    ensures Advances(tokens, pos, r)
    ensures r.result.Some? ==> FitsLevel(r.result.value, level)
    decreases |tokens| - pos, 3 * Rank(level) + 4
  {
    var first := OperandAt(level, tokens, pos);
    if first.result.None? then first
    else
      var rest := BinaryTail(level, tokens, first.pos, first.result.value);
      Parsed(rest.result, rest.pos, first.errors + rest.errors)
  }

  /**
   * The `while (match(operators))` loop of a binary level, with `left` the
   * expression built so far: each operator and the operand after it are
   * folded onto the left.
   */
  function BinaryTail(level: Level, tokens: seq<Token>, pos: nat, left: Expr): (r: Parsed<Expr>)
    requires Valid(tokens, pos)
    ensures Valid(tokens, r.pos) && pos <= r.pos
    ensures r.result.None? ==> |r.errors| > 0
    ensures r.result.Some? && FitsLevel(left, level) ==> FitsLevel(r.result.value, level)
    decreases |tokens| - pos, 3 * Rank(level) + 3
  {
    if !Matches(tokens, pos, Operators(level)) then Parsed(Some(left), pos, [])
    else
      var right := OperandAt(level, tokens, pos + 1);
      if right.result.None? then right
      else
        var rest := BinaryTail(level, tokens, right.pos, Binary(left, tokens[pos], right.result.value));
        Parsed(rest.result, rest.pos, right.errors + rest.errors)
  }

  /** The rule each binary level calls for its operands: the next rule down the ladder. */
  function OperandAt(level: Level, tokens: seq<Token>, pos: nat): (r: Parsed<Expr>)
    requires Valid(tokens, pos)
    ensures Advances(tokens, pos, r)
    ensures r.result.Some? ==> FitsOperand(r.result.value, level)
    decreases |tokens| - pos, 3 * Rank(level) + 2
  {
    match level
    case Comma => AssignmentAt(tokens, pos)
    case Equality => BinaryAt(Comparison, tokens, pos)
    case Comparison => BinaryAt(Term, tokens, pos)
    case Term => BinaryAt(Factor, tokens, pos)
    case Factor => UnaryAt(tokens, pos)
  }

  /**
   * `assignment()`: an equality, then optionally `=` and (recursively) an
   * assignment. A target that is not a variable is reported as "Invalid
   * assignment target." but not thrown: the left expression is the result.
   */
  function AssignmentAt(tokens: seq<Token>, pos: nat): (r: Parsed<Expr>)
    requires Valid(tokens, pos)
    ensures Advances(tokens, pos, r)
    ensures r.result.Some? ==> FitsAssignment(r.result.value)
    decreases |tokens| - pos, 14
  {
    var target := BinaryAt(Equality, tokens, pos);
    if target.result.None? || !Matches(tokens, target.pos, [EQUAL]) then target
    else
      var equals := tokens[target.pos];
      var value := AssignmentAt(tokens, target.pos + 1);
      if value.result.None? then Parsed(None, value.pos, target.errors + value.errors)
      else if target.result.value.Variable? then
        Parsed(Some(Assign(target.result.value.name, value.result.value)), value.pos, target.errors + value.errors)
      else
        Parsed(target.result, value.pos, target.errors + value.errors + [ErrorAt(equals, "Invalid assignment target.")])
  }

  /** `unary()`: prefix `!` and `-` nest to the right, down to a primary. */
  function UnaryAt(tokens: seq<Token>, pos: nat): (r: Parsed<Expr>)
    requires Valid(tokens, pos)
    ensures Advances(tokens, pos, r)
    ensures r.result.Some? ==> FitsUnary(r.result.value)
    decreases |tokens| - pos, 1
  {
    if Matches(tokens, pos, [BANG, MINUS]) then
      var right := UnaryAt(tokens, pos + 1);
      if right.result.None? then right
      else Parsed(Some(Unary(tokens[pos], right.result.value)), right.pos, right.errors)
    else PrimaryAt(tokens, pos)
  }

  /** `primary()`: a literal, a variable, or a parenthesised expression; anything else throws. */
  function PrimaryAt(tokens: seq<Token>, pos: nat): (r: Parsed<Expr>)
    requires Valid(tokens, pos)
    ensures Advances(tokens, pos, r)
    ensures r.result.Some? ==> FitsPrimary(r.result.value)
    decreases |tokens| - pos, 0
  {
    if Matches(tokens, pos, [FALSE]) then Parsed(Some(Literal(Bool(false))), pos + 1, [])
    else if Matches(tokens, pos, [TRUE]) then Parsed(Some(Literal(Bool(true))), pos + 1, [])
    else if Matches(tokens, pos, [NIL]) then Parsed(Some(Literal(Nil)), pos + 1, [])
    else if Matches(tokens, pos, [NUMBER, STRING]) then Parsed(Some(Literal(tokens[pos].literal)), pos + 1, [])
    else if Matches(tokens, pos, [IDENTIFIER]) then Parsed(Some(Variable(tokens[pos])), pos + 1, [])
    else if Matches(tokens, pos, [LEFT_PAREN]) then
      var inner := ExpressionAt(tokens, pos + 1);
      if inner.result.None? then inner
      else
        var close := Consume(tokens, inner.pos, RIGHT_PAREN, "Expect ')' after expression.");
        if close.result.None? then Parsed(None, close.pos, inner.errors + close.errors)
        else Parsed(Some(Grouping(inner.result.value)), close.pos, inner.errors)
    else Parsed(None, pos, [ErrorAt(tokens[pos], "Expect expression.")])
  }

  // ---------------------------------------------------------------------
  // The shapes the ladder produces
  // ---------------------------------------------------------------------

  /**
   * An expression the rule of a binary level can return: a fold of that
   * level's operators whose left side is again such a fold and whose right
   * side is an operand of the level, or an operand alone.
   */
  predicate FitsLevel(e: Expr, level: Level)
    decreases e, 3 * Rank(level) + 3
  {
    (e.Binary? && e.operator.kind in Operators(level) && FitsLevel(e.left, level) && FitsOperand(e.right, level))
    || FitsOperand(e, level)
  }

  /** An expression the next rule down the ladder can return. */
  predicate FitsOperand(e: Expr, level: Level)
    decreases e, 3 * Rank(level) + 2
  {
    match level
    case Comma => FitsAssignment(e)
    case Equality => FitsLevel(e, Comparison)
    case Comparison => FitsLevel(e, Term)
    case Term => FitsLevel(e, Factor)
    case Factor => FitsUnary(e)
  }

  /** An expression `assignment()` can return: assignments nest to the right. */
  predicate FitsAssignment(e: Expr)
    decreases e, 14
  {
    (e.Assign? && FitsAssignment(e.value)) || FitsLevel(e, Equality)
  }

  /** An expression `unary()` can return. */
  predicate FitsUnary(e: Expr)
    decreases e, 1
  {
    (e.Unary? && e.operator.kind in [BANG, MINUS] && FitsUnary(e.right)) || FitsPrimary(e)
  }

  /** An expression `primary()` can return; a group holds any full expression. */
  predicate FitsPrimary(e: Expr)
    decreases e, 0
  {
    match e
    case Literal(_) => true
    case Variable(_) => true
    case Grouping(inner) => FitsLevel(inner, Comma)
    case _ => false
  }

  // ---------------------------------------------------------------------
  // Statements
  // ---------------------------------------------------------------------

  /**
   * `declaration()`, called on a token that is not EOF. A `ParseError` from
   * the statement is caught: the cursor is resynchronised and the entry is
   * `None` (Java's `null`). Either way at least one token is consumed.
   */
  function DeclarationAt(tokens: seq<Token>, pos: nat): (r: Parsed<Stmt>)
    requires Valid(tokens, pos) && !AtEnd(tokens, pos)
    ensures Valid(tokens, r.pos) && pos < r.pos
    ensures r.result.None? ==> |r.errors| > 0
    ensures r.errors == [] ==> r.result.Some? && Complete(r.result.value)
    decreases |tokens| - pos, 1
  {
    var d := if Matches(tokens, pos, [VAR]) then VarDeclarationAt(tokens, pos + 1) else StatementAt(tokens, pos);
    if d.result.Some? then d
    else Parsed(None, Synchronize(tokens, d.pos), d.errors)
  }

  /** `statement()`: a print statement, a block, or an expression statement. */
  function StatementAt(tokens: seq<Token>, pos: nat): (r: Parsed<Stmt>)
    requires Valid(tokens, pos)
    ensures Advances(tokens, pos, r)
    ensures r.errors == [] ==> r.result.Some? && Complete(r.result.value)
    decreases |tokens| - pos, 0
  {
    if Matches(tokens, pos, [PRINT]) then PrintStatementAt(tokens, pos + 1)
    else if Matches(tokens, pos, [LEFT_BRACE]) then
      var b := BlockAt(tokens, pos + 1);
      Parsed(if b.result.None? then None else Some(Block(b.result.value)), b.pos, b.errors)
    else ExpressionStatementAt(tokens, pos)
  }

  /** The closing `consume(SEMICOLON, message)` of a simple statement. */
  function Terminate(tokens: seq<Token>, pos: nat, s: Stmt, errors: seq<Diagnostic>, message: string): (r: Parsed<Stmt>)
    requires Valid(tokens, pos)
    ensures Valid(tokens, r.pos) && pos <= r.pos
    ensures r.result.Some? <==> Check(tokens, pos, SEMICOLON)
    ensures r.result.Some? ==> r.result.value == s && r.pos == pos + 1 && r.errors == errors
    ensures r.result.None? ==> r.pos == pos && r.errors == errors + [ErrorAt(tokens[pos], message)]
  {
    var semi := Consume(tokens, pos, SEMICOLON, message);
    Parsed(if semi.result.None? then None else Some(s), semi.pos, errors + semi.errors)
  }

  /** `printStatement()`, after the `print` keyword. */
  function PrintStatementAt(tokens: seq<Token>, pos: nat): (r: Parsed<Stmt>)
    requires Valid(tokens, pos)
    ensures Advances(tokens, pos, r)
    ensures r.result.Some? ==> r.result.value.Print?
    decreases |tokens| - pos, 0
  {
    var value := ExpressionAt(tokens, pos);
    if value.result.None? then Parsed(None, value.pos, value.errors)
    else Terminate(tokens, value.pos, Print(value.result.value), value.errors, "Expect ';' after value.")
  }

  /** `varDeclaration()`, after the `var` keyword: a name, an optional initializer, a semicolon. */
  function VarDeclarationAt(tokens: seq<Token>, pos: nat): (r: Parsed<Stmt>)
    requires Valid(tokens, pos)
    ensures Advances(tokens, pos, r)
    ensures r.result.Some? ==> r.result.value.Var? && r.result.value.name == tokens[pos] && tokens[pos].kind == IDENTIFIER
  {
    var name := Consume(tokens, pos, IDENTIFIER, "Expect variable name.");
    if name.result.None? then Parsed(None, name.pos, name.errors)
    else if Matches(tokens, name.pos, [EQUAL]) then
      var init := ExpressionAt(tokens, name.pos + 1);
      if init.result.None? then Parsed(None, init.pos, init.errors)
      else Terminate(tokens, init.pos, Var(name.result.value, init.result), init.errors, "Expect ';' after variable declaration.")
    else Terminate(tokens, name.pos, Var(name.result.value, None), [], "Expect ';' after variable declaration.")
  }

  /** `expressionStatement()`. */
  function ExpressionStatementAt(tokens: seq<Token>, pos: nat): (r: Parsed<Stmt>)
    requires Valid(tokens, pos)
    ensures Advances(tokens, pos, r)
    ensures r.result.Some? ==> r.result.value.Expression?
  {
    var e := ExpressionAt(tokens, pos);
    if e.result.None? then Parsed(None, e.pos, e.errors)
    else Terminate(tokens, e.pos, Expression(e.result.value), e.errors, "Expect ';' after expression.")
  }

  /** `block()`, after the `{`: declarations up to `}` or EOF, then the closing brace. */
  function BlockAt(tokens: seq<Token>, pos: nat): (r: Parsed<seq<Option<Stmt>>>)
    requires Valid(tokens, pos)
    ensures Advances(tokens, pos, r)
    ensures r.errors == [] ==> r.result.Some? && AllComplete(r.result.value)
    decreases |tokens| - pos, 3
  {
    var body := BlockItemsAt(tokens, pos);
    var close := Consume(tokens, body.pos, RIGHT_BRACE, "Expect '}' after block.");
    Parsed(if close.result.None? then None else Some(body.items), close.pos, body.errors + close.errors)
  }

  /** The loop of `block()`: one entry per `declaration()` call, a failed one included as `None`. */
  function BlockItemsAt(tokens: seq<Token>, pos: nat): (r: Items)
    requires Valid(tokens, pos)
    ensures Valid(tokens, r.pos) && pos <= r.pos
    ensures AtEnd(tokens, r.pos) || Check(tokens, r.pos, RIGHT_BRACE)
    ensures |r.items| <= r.pos - pos
    ensures r.errors == [] ==> AllComplete(r.items)
    decreases |tokens| - pos, 2
  {
    if Check(tokens, pos, RIGHT_BRACE) || AtEnd(tokens, pos) then Items([], pos, [])
    else
      var d := DeclarationAt(tokens, pos);
      var rest := BlockItemsAt(tokens, d.pos);
      Items([d.result] + rest.items, rest.pos, d.errors + rest.errors)
  }

  /** The loop of `parse()`: declarations until EOF, a failed one included as `None`. */
  function ProgramAt(tokens: seq<Token>, pos: nat): (r: Items)
    requires Valid(tokens, pos)
    ensures Valid(tokens, r.pos) && pos <= r.pos && AtEnd(tokens, r.pos)
    ensures |r.items| <= r.pos - pos
    ensures r.errors == [] ==> AllComplete(r.items)
    decreases |tokens| - pos
  {
    if AtEnd(tokens, pos) then Items([], pos, [])
    else
      var d := DeclarationAt(tokens, pos);
      var rest := ProgramAt(tokens, d.pos);
      Items([d.result] + rest.items, rest.pos, d.errors + rest.errors)
  }

  /** `parse()`: the whole token list. */
  function Parse(tokens: seq<Token>): (r: Items)
    requires WellFormed(tokens)
    ensures r.pos < |tokens| && tokens[r.pos].kind == EOF
    ensures |r.items| <= r.pos
    ensures r.errors == [] ==> AllComplete(r.items)
  {
    ProgramAt(tokens, 0)
  }

  // ---------------------------------------------------------------------
  // Error recovery
  // ---------------------------------------------------------------------

  /** The keywords `synchronize()` takes to start a statement. */
  const StatementStarts: seq<TokenKind> := [CLASS, FUN, VAR, FOR, IF, WHILE, PRINT, RETURN]

  /** Where `synchronize()` may stop: at EOF, just after a `;`, or before a statement keyword. */
  predicate SyncPoint(tokens: seq<Token>, pos: nat)
    requires Valid(tokens, pos)
  {
    AtEnd(tokens, pos)
    || (pos >= 1 && tokens[pos - 1].kind == SEMICOLON)
    || tokens[pos].kind in StatementStarts
  }

  /** The loop of `synchronize()`: the first stopping point from `pos` on. */
  function SyncLoop(tokens: seq<Token>, pos: nat): (stop: nat)
    requires Valid(tokens, pos) && (pos >= 1 || AtEnd(tokens, pos))
    ensures Valid(tokens, stop) && pos <= stop && SyncPoint(tokens, stop)
    ensures forall k | pos <= k < stop :: !SyncPoint(tokens, k)
    decreases |tokens| - pos
  {
    if AtEnd(tokens, pos) then pos
    else if tokens[pos - 1].kind == SEMICOLON then pos
    else if tokens[pos].kind in StatementStarts then pos
    else SyncLoop(tokens, pos + 1)
  }

  /**
   * `synchronize()`: one `advance()`, then the loop. It is only ever called
   * where the cursor has moved or is not at EOF, so `previous()` exists.
   */
  function Synchronize(tokens: seq<Token>, pos: nat): (stop: nat)
    requires Valid(tokens, pos) && (pos >= 1 || !AtEnd(tokens, pos))
    ensures Valid(tokens, stop) && SyncPoint(tokens, stop)
    ensures pos < stop || AtEnd(tokens, pos)
    ensures forall k | pos < k < stop :: !SyncPoint(tokens, k)
  {
    SyncLoop(tokens, Advance(tokens, pos))
  }
}
