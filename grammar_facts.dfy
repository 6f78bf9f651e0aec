/**
 * Facts about the reference parser: how tightly each operator binds in the
 * trees the precedence ladder builds, and what the error paths guarantee.
 */
module GrammarFacts {
  import opened Options
  import opened Tokens
  import opened Ast
  import opened Diagnostics
  import opened Grammar

  /** The operator lists of the levels and `LevelOf` describe the same table. */
  lemma {:induction false} OperatorLevels(kind: TokenKind, level: Level)
    ensures kind in Operators(level) <==> LevelOf(kind) == Some(level)
  {
    if LevelOf(kind).Some? {
      match kind
      case COMMA =>
      case BANG_EQUAL =>
      case EQUAL_EQUAL =>
      case GREATER =>
      case GREATER_EQUAL =>
      case LESS =>
      case LESS_EQUAL =>
      case MINUS =>
      case PLUS =>
      case SLASH =>
      case STAR =>
    } else {
      assert kind !in Operators(level);
    }
  }

  /** A binary node a level's rule can return carries an operator of that level or a tighter one. */
  lemma {:induction false} LevelBinds(e: Expr, level: Level)
    requires FitsLevel(e, level) && e.Binary?
    ensures LevelOf(e.operator.kind).Some? && Rank(LevelOf(e.operator.kind).value) <= Rank(level)
    decreases 3 * Rank(level) + 1
  {
    if e.operator.kind in Operators(level) {
      OperatorLevels(e.operator.kind, level);
    } else {
      OperandBinds(e, level);
    }
  }

  /** A binary node a level's operand rule can return carries an operator of a strictly tighter level. */
  lemma {:induction false} OperandBinds(e: Expr, level: Level)
    requires FitsOperand(e, level) && e.Binary?
    ensures LevelOf(e.operator.kind).Some? && Rank(LevelOf(e.operator.kind).value) < Rank(level)
    decreases 3 * Rank(level)
  {
    match level
    case Comma => LevelBinds(e, Equality);
    case Equality => LevelBinds(e, Comparison);
    case Comparison => LevelBinds(e, Term);
    case Term => LevelBinds(e, Factor);
    case Factor =>
      UnaryIsNotBinary(e);
      assert false;
  }

  /** `unary()` never returns a binary node. */
  lemma {:induction false} UnaryIsNotBinary(e: Expr)
    requires FitsUnary(e)
    ensures !e.Binary?
  {
  }

  /**
   * Left associativity and precedence: in a node a binary level builds
   * with one of its own operators, the right operand, if it is a binary
   * node, binds strictly tighter (so it can never be an ungrouped operator
   * of the same level), and the left operand binds no looser.
   */
  lemma {:induction false} FoldShape(e: Expr, level: Level)
    requires FitsLevel(e, level) && e.Binary? && e.operator.kind in Operators(level)
    ensures e.right.Binary? ==> LevelOf(e.right.operator.kind).Some? && Rank(LevelOf(e.right.operator.kind).value) < Rank(level)
    ensures e.right.Binary? ==> e.right.operator.kind !in Operators(level)
    ensures e.left.Binary? ==> LevelOf(e.left.operator.kind).Some? && Rank(LevelOf(e.left.operator.kind).value) <= Rank(level)
  {
    if FitsLevel(e.left, level) && FitsOperand(e.right, level) {
      if e.right.Binary? {
        OperandBinds(e.right, level);
        OperatorLevels(e.right.operator.kind, level);
      }
      if e.left.Binary? {
        LevelBinds(e.left, level);
      }
    } else {
      OperandBinds(e, level);
      OperatorLevels(e.operator.kind, level);
      assert false;
    }
  }

  // ---------------------------------------------------------------------
  // One step of each loop of the parser
  // ---------------------------------------------------------------------

  /** A binary level whose first operand parses goes on with its loop. */
  lemma {:induction false} LevelFolds(level: Level, tokens: seq<Token>, pos: nat, first: Parsed<Expr>, rest: Parsed<Expr>)
    requires Valid(tokens, pos) && first == OperandAt(level, tokens, pos) && first.result.Some?
    requires rest == BinaryTail(level, tokens, first.pos, first.result.value)
    ensures BinaryAt(level, tokens, pos) == Parsed(rest.result, rest.pos, first.errors + rest.errors)
  {
  }

  /** The loop of a binary level ends at a token that is not one of its operators. */
  lemma {:induction false} TailEnds(level: Level, tokens: seq<Token>, pos: nat, left: Expr)
    requires Valid(tokens, pos) && !Matches(tokens, pos, Operators(level))
    ensures BinaryTail(level, tokens, pos, left) == Parsed(Some(left), pos, [])
  {
  }

  /** One turn of a binary level's loop: an operator and its operand are folded onto the left. */
  lemma {:induction false} TailFolds(level: Level, tokens: seq<Token>, pos: nat, left: Expr, right: Parsed<Expr>, rest: Parsed<Expr>)
    requires Valid(tokens, pos) && Matches(tokens, pos, Operators(level))
    requires right == OperandAt(level, tokens, pos + 1) && right.result.Some?
    requires rest == BinaryTail(level, tokens, right.pos, Binary(left, tokens[pos], right.result.value))
    ensures BinaryTail(level, tokens, pos, left) == Parsed(rest.result, rest.pos, right.errors + rest.errors)
  {
  }

  /** A `ParseError` from the operand after an operator ends the loop and propagates. */
  lemma {:induction false} TailStops(level: Level, tokens: seq<Token>, pos: nat, left: Expr, right: Parsed<Expr>)
    requires Valid(tokens, pos) && Matches(tokens, pos, Operators(level))
    requires right == OperandAt(level, tokens, pos + 1) && right.result.None?
    ensures BinaryTail(level, tokens, pos, left) == right
  {
  }

  /** `assignment()` on a variable target followed by `=` and a value that parses. */
  lemma {:induction false} Assigns(tokens: seq<Token>, pos: nat, target: Parsed<Expr>, value: Parsed<Expr>)
    requires Valid(tokens, pos) && target == BinaryAt(Equality, tokens, pos)
    requires target.result.Some? && target.result.value.Variable? && Matches(tokens, target.pos, [EQUAL])
    requires Valid(tokens, target.pos + 1) && value == AssignmentAt(tokens, target.pos + 1) && value.result.Some?
    ensures AssignmentAt(tokens, pos)
         == Parsed(Some(Assign(target.result.value.name, value.result.value)), value.pos, target.errors + value.errors)
  {
  }

  /** `assignment()` returns its target when the target threw or no `=` follows it. */
  lemma {:induction false} AssignmentStops(tokens: seq<Token>, pos: nat, target: Parsed<Expr>)
    requires Valid(tokens, pos) && target == BinaryAt(Equality, tokens, pos)
    requires target.result.None? || !Matches(tokens, target.pos, [EQUAL])
    ensures AssignmentAt(tokens, pos) == target
  {
  }

  /** A `ParseError` from the value after `=` propagates out of `assignment()`. */
  lemma {:induction false} AssignmentFails(tokens: seq<Token>, pos: nat, target: Parsed<Expr>, value: Parsed<Expr>)
    requires Valid(tokens, pos) && target == BinaryAt(Equality, tokens, pos)
    requires target.result.Some? && Matches(tokens, target.pos, [EQUAL])
    requires Valid(tokens, target.pos + 1) && value == AssignmentAt(tokens, target.pos + 1) && value.result.None?
    ensures AssignmentAt(tokens, pos) == Parsed(None, value.pos, target.errors + value.errors)
  {
  }

  /** A target that is not a variable is reported after the value's errors, and returned. */
  lemma {:induction false} AssignmentRejects(tokens: seq<Token>, pos: nat, target: Parsed<Expr>, value: Parsed<Expr>)
    requires Valid(tokens, pos) && target == BinaryAt(Equality, tokens, pos)
    requires target.result.Some? && !target.result.value.Variable? && Matches(tokens, target.pos, [EQUAL])
    requires Valid(tokens, target.pos + 1) && value == AssignmentAt(tokens, target.pos + 1) && value.result.Some?
    ensures AssignmentAt(tokens, pos)
         == Parsed(target.result, value.pos, target.errors + value.errors + [ErrorAt(tokens[target.pos], "Invalid assignment target.")])
  {
  }

  /** `primary()` on `(`: the inner expression, then the closing parenthesis. */
  lemma {:induction false} PrimaryGroups(tokens: seq<Token>, pos: nat, inner: Parsed<Expr>)
    requires Valid(tokens, pos) && tokens[pos].kind == LEFT_PAREN
    requires Valid(tokens, pos + 1) && inner == ExpressionAt(tokens, pos + 1)
    ensures inner.result.None? ==> PrimaryAt(tokens, pos) == inner
    ensures inner.result.Some? ==>
      var close := Consume(tokens, inner.pos, RIGHT_PAREN, "Expect ')' after expression.");
      PrimaryAt(tokens, pos)
        == if close.result.None? then Parsed(None, close.pos, inner.errors + close.errors)
           else Parsed(Some(Grouping(inner.result.value)), close.pos, inner.errors)
  {
  }

  /** `primary()` on a token that starts no expression throws "Expect expression." there. */
  lemma {:induction false} PrimaryFails(tokens: seq<Token>, pos: nat)
    requires Valid(tokens, pos)
    requires !Matches(tokens, pos, [FALSE]) && !Matches(tokens, pos, [TRUE]) && !Matches(tokens, pos, [NIL])
    requires !Matches(tokens, pos, [NUMBER, STRING]) && !Matches(tokens, pos, [IDENTIFIER]) && !Matches(tokens, pos, [LEFT_PAREN])
    ensures PrimaryAt(tokens, pos) == Parsed(None, pos, [ErrorAt(tokens[pos], "Expect expression.")])
  {
  }

  /** `parse()`'s loop stops at EOF. */
  lemma {:induction false} ProgramEnds(tokens: seq<Token>, pos: nat)
    requires Valid(tokens, pos) && AtEnd(tokens, pos)
    ensures ProgramAt(tokens, pos) == Items([], pos, [])
  {
  }

  /** One turn of `parse()`'s loop: the declaration's entry, then the rest of the program. */
  lemma {:induction false} ProgramSteps(tokens: seq<Token>, pos: nat, d: Parsed<Stmt>, rest: Items)
    requires Valid(tokens, pos) && !AtEnd(tokens, pos) && DeclarationAt(tokens, pos) == d
    requires Valid(tokens, d.pos) && ProgramAt(tokens, d.pos) == rest
    ensures ProgramAt(tokens, pos) == Items([d.result] + rest.items, rest.pos, d.errors + rest.errors)
  {
  }

  /**
   * Where the program loop starts its declarations: the first at the
   * cursor, each next one where the previous declaration left the cursor,
   * and none at EOF.
   */
  function DeclarationStarts(tokens: seq<Token>, pos: nat): (starts: seq<nat>)
    requires Valid(tokens, pos)
    ensures forall i | 0 <= i < |starts| :: Valid(tokens, starts[i]) && !AtEnd(tokens, starts[i]) && pos <= starts[i]
    ensures |starts| == 0 <==> AtEnd(tokens, pos)
    ensures |starts| > 0 ==> starts[0] == pos && AtEnd(tokens, DeclarationAt(tokens, starts[|starts| - 1]).pos)
    ensures forall i | 0 <= i < |starts| - 1 :: starts[i + 1] == DeclarationAt(tokens, starts[i]).pos
    decreases |tokens| - pos
  {
    if AtEnd(tokens, pos) then []
    else [pos] + DeclarationStarts(tokens, DeclarationAt(tokens, pos).pos)
  }

  /**
   * `parse()` holds exactly one entry per declaration the loop ran, in
   * order: that declaration's statement, or `null` when it failed.
   */
  lemma {:induction false} ProgramEntries(tokens: seq<Token>, pos: nat)
    requires Valid(tokens, pos)
    ensures var r := ProgramAt(tokens, pos); var starts := DeclarationStarts(tokens, pos);
      && |r.items| == |starts|
      && forall i | 0 <= i < |starts| :: r.items[i] == DeclarationAt(tokens, starts[i]).result
    decreases |tokens| - pos
  {
    if !AtEnd(tokens, pos) {
      var d := DeclarationAt(tokens, pos);
      ProgramEntries(tokens, d.pos);
      var rest := ProgramAt(tokens, d.pos);
      var later := DeclarationStarts(tokens, d.pos);
      assert ProgramAt(tokens, pos).items == [d.result] + rest.items;
      assert DeclarationStarts(tokens, pos) == [pos] + later;
    }
  }

  /** `block()`'s loop stops at `}` or EOF. */
  lemma {:induction false} BlockEnds(tokens: seq<Token>, pos: nat)
    requires Valid(tokens, pos) && (Check(tokens, pos, RIGHT_BRACE) || AtEnd(tokens, pos))
    ensures BlockItemsAt(tokens, pos) == Items([], pos, [])
  {
  }

  /** One turn of `block()`'s loop. */
  lemma {:induction false} BlockSteps(tokens: seq<Token>, pos: nat, d: Parsed<Stmt>, rest: Items)
    requires Valid(tokens, pos) && !Check(tokens, pos, RIGHT_BRACE) && !AtEnd(tokens, pos) && DeclarationAt(tokens, pos) == d
    requires Valid(tokens, d.pos) && BlockItemsAt(tokens, d.pos) == rest
    ensures BlockItemsAt(tokens, pos) == Items([d.result] + rest.items, rest.pos, d.errors + rest.errors)
  {
  }
}
